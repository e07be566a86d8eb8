/**
 * What the two parameter stores hold: named attributes (set by name, absent meaning `None`),
 * the aquifer layer table, the casing stage table, and the initialisation every store runs
 * before a calculation may start.
 */
module StoreTypes {
  import opened Wrappers
  import opened Numerics
  import opened Catalogs
  import opened Validation

  /** The attribute names a store sets by name. */
  datatype Attr =
    // inputs
    | RequiredFlowRate | HydraulicConductivity | AveragePorosity | BoreLifetimeYear
    | GroundwaterDepth | LongTermDeclineRate | AllowableDrawdown | SafetyMargin
    | TopAquiferLayer | TargetAquiferLayer
    // derived inputs
    | DepthToTopScreen | RequiredFlowRatePerLitreSec | RequiredFlowRatePerM3Sec
    | BoreLifetimePerDay | AquiferThickness | DepthToAquiferBase
    // constants
    | SandFaceVelocityProduction | SandFaceVelocityInjection | NetToGrossRatioAquifer
    | AquiferAveragePorosity | PipeRoughnessCoeff
    // installation outputs
    | ScreenLength | ScreenLengthError | ScreenDiameter | OpenHoleDiameter
    | PumpInletDepth | MinimumPumpHousingDiameter | CasingStageTable
    | MinTotalCasingProductionScreenDiameter | ScreenStageTable
    // cost outputs
    | CostEstimationTable | TotalCostTable
    // names the older pipeline writes
    | ProductionScreenLength | ProductionScreenLengthError | InjectionScreenLength
    | InjectionScreenLengthError | ProductionOpenHoleDiameter | InjectionOpenHoleDiameter
    | ProductionScreenDiameter | InjectionScreenDiameter | IntervalStageData

  /** One aquifer layer: its code, whether it is an aquifer, and the depth of its base. */
  datatype Layer = Layer(code: string, isAquifer: bool, depthToBase: real)

  /** One casing stage: its interval, casing diameter and drill bit, each possibly NaN. */
  datatype StageRow = StageRow(top: Float, bottom: Float, casing: Float, drillBit: Float)
  datatype StageEntry = StageEntry(stage: string, row: StageRow)

  /** One row of the screen stage table: a candidate production casing and what it implies. */
  datatype ScreenRow = ScreenRow(casingDiameter: real, friction: Float, minimumScreenDiameter: Float,
                                 screenDiameter: Float, totalCasing: Float)

  /** The values an attribute can hold. */
  datatype Value =
    | Num(x: real)
    | Text(s: string)
    | Band(lower: real, upper: real)
    | Stages(stages: seq<StageEntry>)
    | ScreenTable(screenRows: seq<ScreenRow>)

  const InitialParamNames: seq<Attr> :=
    [RequiredFlowRate, HydraulicConductivity, AveragePorosity, BoreLifetimeYear, GroundwaterDepth,
     LongTermDeclineRate, AllowableDrawdown, SafetyMargin, TopAquiferLayer, TargetAquiferLayer,
     DepthToTopScreen, RequiredFlowRatePerLitreSec, RequiredFlowRatePerM3Sec, BoreLifetimePerDay,
     AquiferThickness, DepthToAquiferBase, SandFaceVelocityProduction, SandFaceVelocityInjection,
     NetToGrossRatioAquifer, AquiferAveragePorosity, PipeRoughnessCoeff]

  const OutputDefaultNames: seq<Attr> :=
    [ScreenLength, ScreenLengthError, ScreenDiameter, OpenHoleDiameter, PumpInletDepth,
     MinimumPumpHousingDiameter, CasingStageTable]

  const OutputProductionNames: seq<Attr> := [MinTotalCasingProductionScreenDiameter, ScreenStageTable]

  const CostOutputNames: seq<Attr> := [CostEstimationTable, TotalCostTable]

  /** The installation outputs a store exports: the seven defaults, and two more for a production well. */
  function OutputNames(isProductionWell: bool): (names: seq<Attr>)
    ensures |names| == if isProductionWell then 9 else 7
    ensures names[..7] == OutputDefaultNames
    ensures MinTotalCasingProductionScreenDiameter in names <==> isProductionWell
    ensures ScreenStageTable in names <==> isProductionWell
  {
    OutputDefaultNames + (if isProductionWell then OutputProductionNames else [])
  }

  const CasingStageNames: seq<string> :=
    ["pre_collar", "superficial_casing", "pump_chamber_casing", "intermediate_casing", "screen_riser", "screen"]

  const NaNRow: StageRow := StageRow(NaN, NaN, NaN, NaN)

  /** The casing stage table a store starts with: six stages in fixed order, every cell NaN. */
  function InitialStageTable(): (t: seq<StageEntry>)
    ensures |t| == 6
    ensures forall i :: 0 <= i < 6 ==> t[i] == StageEntry(CasingStageNames[i], NaNRow)
  {
    seq(6, i requires 0 <= i < 6 => StageEntry(CasingStageNames[i], NaNRow))
  }

  /** `.loc[stage]` read: the row of the first entry with that label, or KeyError. */
  function FindRow(t: seq<StageEntry>, stage: string): (r: Result<StageRow>)
    ensures r.Err? <==> forall i :: 0 <= i < |t| ==> t[i].stage != stage
    ensures r.Err? ==> r.error == KeyError
    ensures r.Ok? ==> exists i :: 0 <= i < |t| && t[i] == StageEntry(stage, r.value) &&
                                  forall j :: 0 <= j < i ==> t[j].stage != stage
  {
    if t == [] then Err(KeyError)
    else if t[0].stage == stage then Ok(t[0].row)
    else
      var r := FindRow(t[1..], stage);
      assert forall i :: 1 <= i < |t| ==> t[i] == t[1..][i - 1];
      r
  }

  /** `.loc[stage] = row`: overwrite the row(s) with that label, or add it at the end when absent. */
  function SetRow(t: seq<StageEntry>, stage: string, row: StageRow): (u: seq<StageEntry>)
    ensures (exists i :: 0 <= i < |t| && t[i].stage == stage) ==>
              |u| == |t| &&
              forall i :: 0 <= i < |t| ==> u[i] == if t[i].stage == stage then StageEntry(stage, row) else t[i]
    ensures (forall i :: 0 <= i < |t| ==> t[i].stage != stage) ==> u == t + [StageEntry(stage, row)]
  {
    if exists i :: 0 <= i < |t| && t[i].stage == stage
    then seq(|t|, i requires 0 <= i < |t| => if t[i].stage == stage then StageEntry(stage, row) else t[i])
    else t + [StageEntry(stage, row)]
  }

  /** Setting a row and reading it back gives that row. */
  lemma {:induction false} SetThenFind(t: seq<StageEntry>, stage: string, row: StageRow)
    ensures FindRow(SetRow(t, stage, row), stage) == Ok(row)
  {
    var u := SetRow(t, stage, row);
    assert u[|u| - 1].stage == stage || exists i :: 0 <= i < |t| && t[i].stage == stage;
    var r := FindRow(u, stage);
    var i :| 0 <= i < |u| && u[i] == StageEntry(stage, r.value) && forall j :: 0 <= j < i ==> u[j].stage != stage;
  }

  /** Setting one label leaves the rows of every other label as they were. */
  lemma {:induction false} SetKeepsOthers(t: seq<StageEntry>, stage: string, other: string, row: StageRow)
    requires stage != other
    ensures FindRow(SetRow(t, stage, row), other) == FindRow(t, other)
  {
    var u := SetRow(t, stage, row);
    assert forall i :: 0 <= i < |t| ==> (u[i].stage == other <==> t[i].stage == other);
    assert forall i :: 0 <= i < |t| && t[i].stage == other ==> u[i] == t[i];
    var r := FindRow(u, other);
    var r0 := FindRow(t, other);
    if r.Ok? {
      var i :| 0 <= i < |u| && u[i] == StageEntry(other, r.value) && forall j :: 0 <= j < i ==> u[j].stage != other;
      assert i < |t|;
      var i0 :| 0 <= i0 < |t| && t[i0] == StageEntry(other, r0.value) && forall j :: 0 <= j < i0 ==> t[j].stage != other;
      assert i == i0;
    }
  }

  /**
   * The attributes of a fresh store: every declared attribute is `None` (absent) except the five
   * constants and the all-NaN casing stage table.
   */
  function DefaultAttrs(): (attrs: map<Attr, Value>)
    ensures attrs.Keys == {SandFaceVelocityProduction, SandFaceVelocityInjection, NetToGrossRatioAquifer,
                           AquiferAveragePorosity, PipeRoughnessCoeff, CasingStageTable}
    ensures attrs[SandFaceVelocityProduction] == Num(0.01) && attrs[SandFaceVelocityInjection] == Num(0.003)
    ensures attrs[NetToGrossRatioAquifer] == Num(1.0) && attrs[AquiferAveragePorosity] == Num(0.25)
    ensures attrs[PipeRoughnessCoeff] == Num(100.0)
    ensures attrs[CasingStageTable] == Stages(InitialStageTable())
  {
    map[SandFaceVelocityProduction := Num(0.01), SandFaceVelocityInjection := Num(0.003),
        NetToGrossRatioAquifer := Num(1.0), AquiferAveragePorosity := Num(0.25),
        PipeRoughnessCoeff := Num(100.0), CasingStageTable := Stages(InitialStageTable())]
  }

  /** `getattr(store, a)`: the value held, or `None`. */
  function Lookup(attrs: map<Attr, Value>, a: Attr): (v: Option<Value>)
    ensures v.Some? <==> a in attrs
    ensures v.Some? ==> v.value == attrs[a]
  {
    if a in attrs then Some(attrs[a]) else None
  }

  /** The result dictionary of an export gate: `None` when the gate is closed, else one entry per name. */
  predicate IsExportOf(r: Option<map<Attr, Option<Value>>>, open: bool, attrs: map<Attr, Value>, names: seq<Attr>)
  {
    (r.None? <==> !open) &&
    (r.Some? ==> (forall a :: a in r.value <==> a in names) &&
                 forall a :: a in r.value ==> r.value[a] == Lookup(attrs, a))
  }

  /** The export loop: one entry per listed name, holding the attribute's value or `None`. */
  method CollectResults(attrs: map<Attr, Value>, names: seq<Attr>) returns (results: map<Attr, Option<Value>>)
    ensures forall a :: a in results <==> a in names
    ensures forall a :: a in results ==> results[a] == Lookup(attrs, a)
  {
    results := map[];
    for i := 0 to |names|
      invariant forall a :: a in results <==> a in names[..i]
      invariant forall a :: a in results ==> results[a] == Lookup(attrs, a)
    {
      results := results[names[i] := Lookup(attrs, names[i])];
    }
    assert names[..|names|] == names;
  }

  /** A stage key of `assign_parameters`: a name or a number. */
  datatype StageKey = Name(name: string) | Index(index: int)

  /** The stage mapping: installation outputs for `installation` and 0, cost outputs for `cost` and 1, else KeyError. */
  function StageOutputNames(stage: StageKey, isProductionWell: bool): (r: Result<seq<Attr>>)
    ensures r.Err? <==> stage !in {Name("installation"), Index(0), Name("cost"), Index(1)}
    ensures r.Err? ==> r.error == KeyError
    ensures stage in {Name("installation"), Index(0)} ==> r == Ok(OutputNames(isProductionWell))
    ensures stage in {Name("cost"), Index(1)} ==> r == Ok(CostOutputNames)
  {
    match stage
    case Name(n) =>
      if n == "installation" then Ok(OutputNames(isProductionWell))
      else if n == "cost" then Ok(CostOutputNames)
      else Err(KeyError)
    case Index(k) =>
      if k == 0 then Ok(OutputNames(isProductionWell))
      else if k == 1 then Ok(CostOutputNames)
      else Err(KeyError)
  }

  /** The writes of `assign_parameters`, keyword by keyword: listed names with a value other than `None`. */
  function AssignedOutputs(attrs: map<Attr, Value>, kwargs: seq<(Attr, Option<Value>)>, names: seq<Attr>)
    : map<Attr, Value>
    decreases |kwargs|
  {
    if kwargs == [] then attrs
    else
      var prev := AssignedOutputs(attrs, kwargs[..|kwargs| - 1], names);
      var (name, value) := kwargs[|kwargs| - 1];
      if name in names && value.Some? then prev[name := value.value] else prev
  }

  /**
   * With each keyword given once, a listed name with a value takes it and every other attribute
   * keeps its value (or stays `None`).
   */
  lemma {:induction false} AssignedOutputsMeaning(attrs: map<Attr, Value>, kwargs: seq<(Attr, Option<Value>)>,
                                                  names: seq<Attr>, a: Attr)
    requires forall i, j :: 0 <= i < j < |kwargs| ==> kwargs[i].0 != kwargs[j].0
    ensures var out := AssignedOutputs(attrs, kwargs, names);
            if a in names && exists i :: 0 <= i < |kwargs| && kwargs[i].0 == a && kwargs[i].1.Some?
            then a in out && exists i :: 0 <= i < |kwargs| && kwargs[i].0 == a && out[a] == kwargs[i].1.value
            else (a in out <==> a in attrs) && (a in attrs ==> out[a] == attrs[a])
  {
    if a in names && exists i :: 0 <= i < |kwargs| && kwargs[i].0 == a && kwargs[i].1.Some? {
      var i :| 0 <= i < |kwargs| && kwargs[i].0 == a && kwargs[i].1.Some?;
      AssignedOutputsTakes(attrs, kwargs, names, i);
    } else {
      AssignedOutputsKeeps(attrs, kwargs, names, a);
    }
  }

  /** A name with no value among the keywords, or not listed, keeps its value (or stays unset). */
  lemma {:induction false} AssignedOutputsKeeps(attrs: map<Attr, Value>, kwargs: seq<(Attr, Option<Value>)>,
                                                names: seq<Attr>, a: Attr)
    requires !(a in names && exists i :: 0 <= i < |kwargs| && kwargs[i].0 == a && kwargs[i].1.Some?)
    ensures var out := AssignedOutputs(attrs, kwargs, names);
            (a in out <==> a in attrs) && (a in attrs ==> out[a] == attrs[a])
    decreases |kwargs|
  {
    if kwargs != [] {
      var n := |kwargs| - 1;
      var init := kwargs[..n];
      if a in names {
        forall i | 0 <= i < n && init[i].0 == a
          ensures init[i].1.None?
        {
          assert init[i] == kwargs[i];
        }
      }
      AssignedOutputsKeeps(attrs, init, names, a);
      assert !(kwargs[n].0 == a && a in names && kwargs[n].1.Some?);
    }
  }

  /** With each keyword given once, the `i`-th keyword's listed name takes its value. */
  lemma {:induction false} AssignedOutputsTakes(attrs: map<Attr, Value>, kwargs: seq<(Attr, Option<Value>)>,
                                                names: seq<Attr>, i: nat)
    requires forall p, q :: 0 <= p < q < |kwargs| ==> kwargs[p].0 != kwargs[q].0
    requires i < |kwargs| && kwargs[i].0 in names && kwargs[i].1.Some?
    ensures var out := AssignedOutputs(attrs, kwargs, names);
            kwargs[i].0 in out && out[kwargs[i].0] == kwargs[i].1.value
    decreases |kwargs|
  {
    var n := |kwargs| - 1;
    if i < n {
      var init := kwargs[..n];
      assert init[i] == kwargs[i];
      assert kwargs[i].0 != kwargs[n].0;
      AssignedOutputsTakes(attrs, init, names, i);
    }
  }

  /** What the combined export returns: both keys, each with its gate's result. */
  datatype CombinedResults = CombinedResults(installationResults: Option<map<Attr, Option<Value>>>,
                                             costResults: Option<map<Attr, Option<Value>>>)

  /** The layer codes, top to bottom. */
  function Codes(layers: seq<Layer>): (codes: seq<string>)
    ensures |codes| == |layers|
    ensures forall i :: 0 <= i < |layers| ==> codes[i] == layers[i].code
  {
    seq(|layers|, i requires 0 <= i < |layers| => layers[i].code)
  }

  /**
   * `_assign_input_params`: for each listed name in order, the keyword value when one is given
   * (an absent key stands for `None`).
   */
  function AssignedInputs(attrs: map<Attr, Value>, kwargs: map<Attr, Value>, names: seq<Attr>): map<Attr, Value>
    decreases |names|
  {
    if names == [] then attrs
    else
      var prev := AssignedInputs(attrs, kwargs, names[..|names| - 1]);
      var n := names[|names| - 1];
      if n in kwargs then prev[n := kwargs[n]] else prev
  }

  /** Only listed names that have a keyword value change, and they take that value. */
  lemma {:induction false} AssignedInputsMeaning(attrs: map<Attr, Value>, kwargs: map<Attr, Value>, names: seq<Attr>)
    ensures forall a :: a in names && a in kwargs ==>
              a in AssignedInputs(attrs, kwargs, names) && AssignedInputs(attrs, kwargs, names)[a] == kwargs[a]
    ensures forall a :: !(a in names && a in kwargs) ==>
              (a in AssignedInputs(attrs, kwargs, names) <==> a in attrs) &&
              (a in attrs ==> AssignedInputs(attrs, kwargs, names)[a] == attrs[a])
    decreases |names|
  {
    if names != [] {
      var init := names[..|names| - 1];
      AssignedInputsMeaning(attrs, kwargs, init);
      forall a | a in names
        ensures a in init || a == names[|names| - 1]
      {
        var k :| 0 <= k < |names| && names[k] == a;
        if k < |names| - 1 { assert init[k] == a; }
      }
      assert forall a :: a in init ==> a in names;
    }
  }

  /** The number held by an attribute; a missing or non-numeric value fails with TypeError in arithmetic. */
  function NumberOf(attrs: map<Attr, Value>, a: Attr): (r: Result<real>)
    ensures r.Ok? <==> a in attrs && attrs[a].Num?
    ensures r.Err? ==> r.error == TypeError
    ensures r.Ok? ==> attrs[a] == Num(r.value)
  {
    if a in attrs && attrs[a].Num? then Ok(attrs[a].x) else Err(TypeError)
  }

  /** A layer code held by an attribute, if it holds text. */
  function CodeOf(attrs: map<Attr, Value>, a: Attr): (c: Option<string>)
    ensures c.Some? <==> a in attrs && attrs[a].Text?
    ensures c.Some? ==> attrs[a] == Text(c.value)
  {
    if a in attrs && attrs[a].Text? then Some(attrs[a].s) else None
  }

  /** The state a store's initialisation leaves: attributes, layer table and how it ended. */
  datatype InitState = InitState(attrs: map<Attr, Value>, layers: seq<Layer>, status: Status)

  const AllowedTopLayers: seq<string> := ["100qa", "102utqa"]

  /**
   * `_validate_aquifer_layer` and `_validate_target_aquifer_layer`, then the two reads: the
   * target layer must be present and not bottommost; the screen starts at its base and the
   * aquifer is as thick as the next layer reaches below it.
   */
  function TargetDepths(t: seq<Layer>, target: Option<string>): (r: Option<(real, real)>)
    ensures r.Some? ==> target.Some? && |t| >= 2
  {
    if target.None? then None
    else match LayerPosition(t, target.value)
      case None => None
      case Some(k) =>
        if k >= |t| - 1 then None
        else Some((t[k].depthToBase, t[k + 1].depthToBase - t[k].depthToBase))
  }

  /**
   * The target depths exist exactly when some layer other than the bottom one has the target
   * code; they are then read from the first such layer and the one below it.
   */
  lemma TargetDepthsMeaning(t: seq<Layer>, target: Option<string>)
    ensures var r := TargetDepths(t, target);
            r.Some? <==> target.Some? && exists k :: 0 <= k < |t| - 1 && t[k].code == target.value
    ensures var r := TargetDepths(t, target);
            r.Some? ==> exists k :: 0 <= k < |t| - 1 && t[k].code == target.value &&
                                    (forall i :: 0 <= i < k ==> t[i].code != target.value) &&
                                    r.value == (t[k].depthToBase, t[k + 1].depthToBase - t[k].depthToBase)
  {
    if target.Some? {
      var p := LayerPosition(t, target.value);
      if p.Some? && p.value < |t| - 1 {
        TargetDepthsAtFirst(t, target.value, p.value);
      } else {
        TargetDepthsMissing(t, target.value);
      }
    }
  }

  /** When the first layer with the code is above the bottom one, the depths are read from it. */
  lemma TargetDepthsAtFirst(t: seq<Layer>, code: string, k: nat)
    requires LayerPosition(t, code) == Some(k) && k < |t| - 1
    ensures TargetDepths(t, Some(code)) == Some((t[k].depthToBase, t[k + 1].depthToBase - t[k].depthToBase))
    ensures t[k].code == code && forall i :: 0 <= i < k ==> t[i].code != code
  {
  }

  /** Without a layer above the bottom one having the code, there are no target depths. */
  lemma TargetDepthsMissing(t: seq<Layer>, code: string)
    requires LayerPosition(t, code).None? || LayerPosition(t, code).value >= |t| - 1
    ensures TargetDepths(t, Some(code)).None?
    ensures forall k :: 0 <= k < |t| - 1 ==> t[k].code != code
  {
    if LayerPosition(t, code).Some? {
      NoMatchAboveFirst(t, code, LayerPosition(t, code).value);
    }
  }

  /** No layer above the first with a code has that code. */
  lemma NoMatchAboveFirst(t: seq<Layer>, code: string, k: nat)
    requires LayerPosition(t, code) == Some(k)
    ensures forall j :: 0 <= j < |t| && j < k ==> t[j].code != code
  {
  }

  /**
   * The position of the first layer with the given code (`index.get_loc`), the store's form of
   * `Validation.LayerIndex` (see `LayerPositionIsLayerIndex`).
   */
  function LayerPosition(t: seq<Layer>, code: string): (k: Option<nat>)
    ensures k.None? <==> forall i :: 0 <= i < |t| ==> t[i].code != code
    ensures k.Some? ==> k.value < |t| && t[k.value].code == code &&
                        forall i :: 0 <= i < k.value ==> t[i].code != code
  {
    if t == [] then None
    else if t[0].code == code then Some(0)
    else match LayerPosition(t[1..], code)
      case None => None
      case Some(k) =>
        assert forall i :: 1 <= i <= k ==> t[i] == t[1..][i - 1];
        Some(k + 1)
  }

  /** The store's layer lookup is the stand-alone check's lookup on the layer codes. */
  lemma LayerPositionIsLayerIndex(t: seq<Layer>, code: string)
    ensures LayerPosition(t, code) == LayerIndex(Codes(t), code)
  {
    var codes := Codes(t);
    assert code in codes <==> exists i :: 0 <= i < |t| && codes[i] == code;
    var p := LayerPosition(t, code);
    var q := LayerIndex(codes, code);
    if p.Some? && q.Some? {
      assert p.value <= q.value && q.value <= p.value;
    }
  }

  /**
   * `_validate_aquifer_layer` and `_validate_top_aquifer_layer`, then the read: the top layer
   * must be present and be `100qa` or `102utqa`; the top aquifer ends at its base.
   */
  function TopAquiferBase(t: seq<Layer>, top: Option<string>): (r: Option<real>)
    ensures r.Some? <==> top.Some? && top.value in AllowedTopLayers && exists j :: 0 <= j < |t| && t[j].code == top.value
    ensures r.Some? ==> exists j :: 0 <= j < |t| && t[j].code == top.value &&
                                  (forall i :: 0 <= i < j ==> t[i].code != top.value) &&
                                  r.value == t[j].depthToBase
  {
    if top.None? then None
    else match LayerPosition(t, top.value)
      case None => None
      case Some(j) =>
        assert t[j].code == top.value;
        if top.value !in AllowedTopLayers then None else Some(t[j].depthToBase)
  }

  /** `_validate_initial_inputs`: no catalog or layer table is empty and every initial input is set. */
  predicate InputsComplete(attrs: map<Attr, Value>, layers: seq<Layer>, casingRows: nat, drillingRows: nat)
  {
    casingRows > 0 && drillingRows > 0 && |layers| > 0 &&
    forall i :: 0 <= i < |InitialParamNames| ==> InitialParamNames[i] in attrs
  }

  /** `m` agrees with `base` on every attribute outside `changed`. */
  predicate AgreeOutside(m: map<Attr, Value>, base: map<Attr, Value>, changed: set<Attr>)
  {
    forall a :: a !in changed ==> (a in m <==> a in base) && (a in base ==> m[a] == base[a])
  }

  /** `n` copies of `s` end to end, as Python's `str * int` builds them. */
  function Repeated(s: string, n: nat): (r: string)
    ensures |r| == n * |s|
  {
    if n == 0 then [] else s + Repeated(s, n - 1)
  }

  /** Every character of `Repeated(s, n)` is the character of `s` at the same offset within its copy. */
  lemma {:induction false} RepeatedIsPeriodic(s: string, n: nat, k: nat, i: nat)
    requires k < n && i < |s|
    ensures k * |s| + i < |Repeated(s, n)| && Repeated(s, n)[k * |s| + i] == s[i]
  {
    if k > 0 {
      RepeatedIsPeriodic(s, n - 1, k - 1, i);
      assert k * |s| + i == |s| + ((k - 1) * |s| + i);
    }
  }

  /**
   * `bore_lifetime_year * 365`: a number is scaled to days, and a text, which Python's `*`
   * repeats rather than rejects, becomes 365 copies of itself; an unset lifetime (`None`) or a
   * pair or table raises TypeError.
   */
  function LifetimeInDays(attrs: map<Attr, Value>): (r: Result<Value>)
    ensures r.Ok? <==> BoreLifetimeYear in attrs && (attrs[BoreLifetimeYear].Num? || attrs[BoreLifetimeYear].Text?)
    ensures r.Err? ==> r.error == TypeError
    ensures r.Ok? && attrs[BoreLifetimeYear].Num? ==> r.value.Num? && r.value.x == 365.0 * attrs[BoreLifetimeYear].x
    ensures r.Ok? && attrs[BoreLifetimeYear].Text? ==>
              r.value.Text? && |r.value.s| == 365 * |attrs[BoreLifetimeYear].s|
  {
    if BoreLifetimeYear !in attrs then Err(TypeError)
    else match attrs[BoreLifetimeYear]
      case Num(years) => Ok(Num(years * 365.0))
      case Text(code) => Ok(Text(Repeated(code, 365)))
      case _ => Err(TypeError)
  }

  /**
   * The flow rate is a number and its per-second forms are derived from it; the lifetime in days
   * is what `LifetimeInDays` makes of the lifetime in years.
   */
  predicate FlowsDerived(m: map<Attr, Value>)
  {
    RequiredFlowRate in m && m[RequiredFlowRate].Num? &&
    RequiredFlowRatePerLitreSec in m && m[RequiredFlowRatePerLitreSec] == Num(m[RequiredFlowRate].x / 86.4) &&
    RequiredFlowRatePerM3Sec in m && m[RequiredFlowRatePerM3Sec] == Num(m[RequiredFlowRate].x / 86400.0) &&
    BoreLifetimePerDay in m && LifetimeInDays(m) == Ok(m[BoreLifetimePerDay])
  }

  /**
   * The target layer is named, its first occurrence is not the bottom layer, the screen starts at
   * its base and the aquifer thickness reaches to the next layer's base.
   */
  predicate TargetDerived(m: map<Attr, Value>, t: seq<Layer>)
  {
    TargetAquiferLayer in m && m[TargetAquiferLayer].Text? &&
    DepthToTopScreen in m && AquiferThickness in m &&
    exists k :: 0 <= k < |t| - 1 && t[k].code == m[TargetAquiferLayer].s &&
      (forall i :: 0 <= i < k ==> t[i].code != t[k].code) &&
      m[DepthToTopScreen] == Num(t[k].depthToBase) &&
      m[AquiferThickness] == Num(t[k + 1].depthToBase - t[k].depthToBase)
  }

  /** The top layer is named, is an allowed aquifer present in the table, and its base is the aquifer base. */
  predicate TopDerived(m: map<Attr, Value>, t: seq<Layer>)
  {
    TopAquiferLayer in m && m[TopAquiferLayer].Text? && m[TopAquiferLayer].s in AllowedTopLayers &&
    DepthToAquiferBase in m &&
    exists j :: 0 <= j < |t| && t[j].code == m[TopAquiferLayer].s &&
      (forall i :: 0 <= i < j ==> t[i].code != t[j].code) &&
      m[DepthToAquiferBase] == Num(t[j].depthToBase)
  }

  /** The last two steps of initialisation: the top-aquifer base, then the completeness check. */
  function InitialisedTop(a3: map<Attr, Value>, t: seq<Layer>, casingRows: nat, drillingRows: nat): InitState
  {
    match TopAquiferBase(t, CodeOf(a3, TopAquiferLayer))
    case None => InitState(a3, t, Raised(ValueError))
    case Some(base) =>
      var a4 := a3[DepthToAquiferBase := Num(base)];
      if InputsComplete(a4, t, casingRows, drillingRows) then InitState(a4, t, Done)
      else InitState(a4, t, Raised(ValueError))
  }

  /**
   * The last two steps keep the layer table and change only the aquifer base; success means the
   * inputs are complete and the base is that of the top layer; a failure is ValueError.
   */
  lemma InitialisedTopMeaning(a3: map<Attr, Value>, t: seq<Layer>, casingRows: nat, drillingRows: nat)
    ensures var st := InitialisedTop(a3, t, casingRows, drillingRows);
            st.layers == t && AgreeOutside(st.attrs, a3, {DepthToAquiferBase}) &&
            (st.status.Done? ==> InputsComplete(st.attrs, t, casingRows, drillingRows) && TopDerived(st.attrs, t)) &&
            (st.status.Raised? ==> st.status.error == ValueError)
  {
  }

  /** Initialisation from the layer table on: target depths, then the top-aquifer steps. */
  function InitialisedLayers(a2: map<Attr, Value>, t: seq<Layer>, casingRows: nat, drillingRows: nat): InitState
  {
    match TargetDepths(t, CodeOf(a2, TargetAquiferLayer))
    case None => InitState(a2, t, Raised(ValueError))
    case Some(d) =>
      InitialisedTop(a2[DepthToTopScreen := Num(d.0)][AquiferThickness := Num(d.1)], t, casingRows, drillingRows)
  }

  /**
   * The layer steps keep the layer table and change only the three depths; success means the
   * inputs are complete and the target and top depths are derived; a failure is ValueError.
   */
  lemma {:induction false} InitialisedLayersMeaning(a2: map<Attr, Value>, t: seq<Layer>, casingRows: nat,
                                                    drillingRows: nat)
    ensures var st := InitialisedLayers(a2, t, casingRows, drillingRows);
            st.layers == t && AgreeOutside(st.attrs, a2, {DepthToTopScreen, AquiferThickness, DepthToAquiferBase}) &&
            (st.status.Done? ==>
               InputsComplete(st.attrs, t, casingRows, drillingRows) && TargetDerived(st.attrs, t) &&
               TopDerived(st.attrs, t)) &&
            (st.status.Raised? ==> st.status.error == ValueError)
  {
    match TargetDepths(t, CodeOf(a2, TargetAquiferLayer))
    case None =>
    case Some(d) =>
      TargetDepthsMeaning(t, CodeOf(a2, TargetAquiferLayer));
      var a3 := a2[DepthToTopScreen := Num(d.0)][AquiferThickness := Num(d.1)];
      assert TargetDerived(a3, t);
      InitialisedTopMeaning(a3, t, casingRows, drillingRows);
      var st := InitialisedTop(a3, t, casingRows, drillingRows);
      TargetSurvivesBase(a3, st.attrs, t);
  }

  /** Writing the aquifer base does not disturb the target depths. */
  lemma TargetSurvivesBase(a3: map<Attr, Value>, m: map<Attr, Value>, t: seq<Layer>)
    requires TargetDerived(a3, t)
    requires AgreeOutside(m, a3, {DepthToAquiferBase})
    ensures TargetDerived(m, t)
  {
    assert TargetAquiferLayer != DepthToAquiferBase && DepthToTopScreen != DepthToAquiferBase &&
           AquiferThickness != DepthToAquiferBase;
    assert m[TargetAquiferLayer] == a3[TargetAquiferLayer];
    assert m[DepthToTopScreen] == a3[DepthToTopScreen] && m[AquiferThickness] == a3[AquiferThickness];
  }

  /** The per-second flows and the lifetime in days, written over `a0`. */
  function WithFlows(a0: map<Attr, Value>, q: real, days: Value): map<Attr, Value>
  {
    a0[RequiredFlowRatePerLitreSec := Num(q / 86.4)][RequiredFlowRatePerM3Sec := Num(q / 86400.0)]
      [BoreLifetimePerDay := days]
  }

  /** Writing the flows changes only the three derived flow names, and derives them from the inputs. */
  lemma WithFlowsMeaning(a0: map<Attr, Value>, q: real, days: Value)
    ensures AgreeOutside(WithFlows(a0, q, days), a0,
                         {RequiredFlowRatePerLitreSec, RequiredFlowRatePerM3Sec, BoreLifetimePerDay})
    ensures NumberOf(a0, RequiredFlowRate) == Ok(q) && LifetimeInDays(a0) == Ok(days) ==>
              FlowsDerived(WithFlows(a0, q, days))
  {
  }

  /** The layer steps after the flows keep the flows and change nothing outside the derived names. */
  lemma {:induction false} LayerStepsAfterFlows(a0: map<Attr, Value>, a2: map<Attr, Value>, t: seq<Layer>,
                                                casingRows: nat, drillingRows: nat)
    requires AgreeOutside(a2, a0, {RequiredFlowRatePerLitreSec, RequiredFlowRatePerM3Sec, BoreLifetimePerDay})
    requires FlowsDerived(a2)
    ensures var st := InitialisedLayers(a2, t, casingRows, drillingRows);
            AgreeOutside(st.attrs, a0, DerivedNames) && FlowsDerived(st.attrs)
  {
    InitialisedLayersMeaning(a2, t, casingRows, drillingRows);
    var st := InitialisedLayers(a2, t, casingRows, drillingRows);
    AgreeOutsideChain(st.attrs, a2, a0, {DepthToTopScreen, AquiferThickness, DepthToAquiferBase},
                      {RequiredFlowRatePerLitreSec, RequiredFlowRatePerM3Sec, BoreLifetimePerDay}, DerivedNames);
    FlowsSurviveLayerSteps(a2, st.attrs);
  }

  /**
   * Initialisation after the keyword inputs are assigned: the flow in L/s and m^3/s, the lifetime
   * in days, then the layer-table steps.
   */
  function InitialisedFlows(a0: map<Attr, Value>, layers: seq<Layer>, layerInput: Option<seq<Layer>>,
                            casingRows: nat, drillingRows: nat): InitState
  {
    match NumberOf(a0, RequiredFlowRate)
    case Err(e) => InitState(a0, layers, Raised(e))
    case Ok(q) =>
      match LifetimeInDays(a0)
      case Err(e) =>
        InitState(a0[RequiredFlowRatePerLitreSec := Num(q / 86.4)][RequiredFlowRatePerM3Sec := Num(q / 86400.0)],
                  layers, Raised(e))
      case Ok(days) =>
        var a2 := WithFlows(a0, q, days);
        if layerInput.None? then InitState(a2, layers, Raised(ValueError))
        else InitialisedLayers(a2, layerInput.value, casingRows, drillingRows)
  }

  /**
   * After the keyword inputs only derived attributes change; success means the given layer table
   * is taken and flows, lifetime, target and top depths are all derived; failures are TypeError
   * (an unset or non-numeric flow rate, or a lifetime that is neither a number nor a text) or
   * ValueError.
   */
  lemma {:induction false} InitialisedFlowsMeaning(a0: map<Attr, Value>, layers: seq<Layer>,
                                                   layerInput: Option<seq<Layer>>, casingRows: nat, drillingRows: nat)
    ensures var st := InitialisedFlows(a0, layers, layerInput, casingRows, drillingRows);
            AgreeOutside(st.attrs, a0, DerivedNames) &&
            (st.status.Done? ==>
               layerInput.Some? && st.layers == layerInput.value &&
               InputsComplete(st.attrs, st.layers, casingRows, drillingRows) &&
               FlowsDerived(st.attrs) && TargetDerived(st.attrs, st.layers) && TopDerived(st.attrs, st.layers)) &&
            (st.status.Raised? ==> st.status.error in {TypeError, ValueError})
  {
    match NumberOf(a0, RequiredFlowRate)
    case Err(e) =>
    case Ok(q) =>
      match LifetimeInDays(a0)
      case Err(e) =>
      case Ok(days) =>
        var a2 := WithFlows(a0, q, days);
        WithFlowsMeaning(a0, q, days);
        if layerInput.Some? {
          LayerStepsAfterFlows(a0, a2, layerInput.value, casingRows, drillingRows);
          InitialisedLayersMeaning(a2, layerInput.value, casingRows, drillingRows);
        }
  }

  /** The four outcomes of `InitialisedFlows`, one per step that can stop it. */
  lemma InitialisedFlowsCases(a0: map<Attr, Value>, layers: seq<Layer>, layerInput: Option<seq<Layer>>,
                              casingRows: nat, drillingRows: nat)
    ensures var st := InitialisedFlows(a0, layers, layerInput, casingRows, drillingRows);
            var flow := NumberOf(a0, RequiredFlowRate);
            var days := LifetimeInDays(a0);
            (flow.Err? ==> st == InitState(a0, layers, Raised(flow.error))) &&
            (flow.Ok? && days.Err? ==>
               st == InitState(a0[RequiredFlowRatePerLitreSec := Num(flow.value / 86.4)]
                                 [RequiredFlowRatePerM3Sec := Num(flow.value / 86400.0)],
                               layers, Raised(days.error))) &&
            (flow.Ok? && days.Ok? && layerInput.None? ==>
               st == InitState(WithFlows(a0, flow.value, days.value), layers, Raised(ValueError))) &&
            (flow.Ok? && days.Ok? && layerInput.Some? ==>
               st == InitialisedLayers(WithFlows(a0, flow.value, days.value), layerInput.value,
                                       casingRows, drillingRows))
  {
  }

  /** Agreement outside `s1`, then outside `s2` with `s1 <= s2`, is agreement outside `s2`. */
  lemma AgreeOutsideWidens(m: map<Attr, Value>, b: map<Attr, Value>, c: map<Attr, Value>, s1: set<Attr>, s2: set<Attr>)
    requires AgreeOutside(m, b, s1) && AgreeOutside(b, c, s2) && s1 <= s2
    ensures AgreeOutside(m, c, s2)
  {
  }

  /** Agreement outside `s1`, then outside `s2`, is agreement outside any `s` covering both. */
  lemma AgreeOutsideChain(m: map<Attr, Value>, b: map<Attr, Value>, c: map<Attr, Value>, s1: set<Attr>, s2: set<Attr>,
                          s: set<Attr>)
    requires AgreeOutside(m, b, s1) && AgreeOutside(b, c, s2) && s1 + s2 <= s
    ensures AgreeOutside(m, c, s)
  {
  }

  /** The layer steps do not touch the flow rates and lifetimes. */
  lemma FlowsSurviveLayerSteps(a2: map<Attr, Value>, m: map<Attr, Value>)
    requires FlowsDerived(a2)
    requires AgreeOutside(m, a2, {DepthToTopScreen, AquiferThickness, DepthToAquiferBase})
    ensures FlowsDerived(m)
  {
    var s := {DepthToTopScreen, AquiferThickness, DepthToAquiferBase};
    assert m[BoreLifetimeYear] == a2[BoreLifetimeYear];
    assert RequiredFlowRate !in s && BoreLifetimeYear !in s && RequiredFlowRatePerLitreSec !in s &&
           RequiredFlowRatePerM3Sec !in s && BoreLifetimePerDay !in s;
  }

  /**
   * `initialise_calculation_parameters`: assign the keyword inputs, derive the flow in L/s and
   * m^3/s and the lifetime in days, take the layer table, derive the screen depth and aquifer
   * thickness from the target layer, the base of the top aquifer from the top layer, and check
   * that nothing is empty or missing.  A step that raises keeps the writes of the steps before it.
   */
  function Initialised(attrs: map<Attr, Value>, layers: seq<Layer>, kwargs: map<Attr, Value>,
                       layerInput: Option<seq<Layer>>, casingRows: nat, drillingRows: nat): InitState
  {
    InitialisedFlows(AssignedInputs(attrs, kwargs, InitialParamNames), layers, layerInput, casingRows, drillingRows)
  }

  /**
   * After the keyword inputs are assigned, initialisation changes only derived attributes;
   * success means every derived value is in place and the inputs are complete; failures are
   * TypeError or ValueError.
   */
  lemma InitialisedMeaning(attrs: map<Attr, Value>, layers: seq<Layer>, kwargs: map<Attr, Value>,
                           layerInput: Option<seq<Layer>>, casingRows: nat, drillingRows: nat)
    ensures var st := Initialised(attrs, layers, kwargs, layerInput, casingRows, drillingRows);
            AgreeOutside(st.attrs, AssignedInputs(attrs, kwargs, InitialParamNames), DerivedNames) &&
            (st.status.Done? ==>
               layerInput.Some? && st.layers == layerInput.value &&
               InputsComplete(st.attrs, st.layers, casingRows, drillingRows) &&
               FlowsDerived(st.attrs) && TargetDerived(st.attrs, st.layers) && TopDerived(st.attrs, st.layers)) &&
            (st.status.Raised? ==> st.status.error in {TypeError, ValueError})
  {
    InitialisedFlowsMeaning(AssignedInputs(attrs, kwargs, InitialParamNames), layers, layerInput, casingRows,
                            drillingRows);
  }

  /** The attributes initialisation derives rather than reads. */
  const DerivedNames: set<Attr> :=
    {RequiredFlowRatePerLitreSec, RequiredFlowRatePerM3Sec, BoreLifetimePerDay,
     DepthToTopScreen, AquiferThickness, DepthToAquiferBase}

  /**
   * Initialisation touches only the initial parameters: outputs and every other attribute keep
   * their values whatever the outcome.
   */
  lemma {:induction false} InitialisedKeepsOutputs(attrs: map<Attr, Value>, layers: seq<Layer>, kwargs: map<Attr, Value>,
                                                   layerInput: Option<seq<Layer>>, casingRows: nat, drillingRows: nat,
                                                   a: Attr)
    requires a !in InitialParamNames
    ensures var st := Initialised(attrs, layers, kwargs, layerInput, casingRows, drillingRows);
            (a in st.attrs <==> a in attrs) && (a in attrs ==> st.attrs[a] == attrs[a])
  {
    AssignedInputsMeaning(attrs, kwargs, InitialParamNames);
    InitialisedMeaning(attrs, layers, kwargs, layerInput, casingRows, drillingRows);
    assert a !in DerivedNames;
  }

  /** A missing flow rate stops initialisation with TypeError before anything is derived. */
  lemma {:induction false} MissingFlowRateRaises(attrs: map<Attr, Value>, layers: seq<Layer>, kwargs: map<Attr, Value>,
                                                  layerInput: Option<seq<Layer>>, casingRows: nat, drillingRows: nat)
    requires RequiredFlowRate !in kwargs && RequiredFlowRate !in attrs
    ensures var st := Initialised(attrs, layers, kwargs, layerInput, casingRows, drillingRows);
            st.status == Raised(TypeError) && st.layers == layers &&
            st.attrs == AssignedInputs(attrs, kwargs, InitialParamNames)
  {
    AssignedInputsMeaning(attrs, kwargs, InitialParamNames);
  }

  /**
   * A lifetime given as text does not stop initialisation: with a numeric flow rate the flows
   * are derived, the lifetime in days is the text repeated 365 times, and the layer steps run
   * just as for a numeric lifetime.
   */
  lemma {:induction false} TextLifetimeIsRepeated(a0: map<Attr, Value>, layers: seq<Layer>,
                                                  layerInput: Option<seq<Layer>>, casingRows: nat, drillingRows: nat,
                                                  q: real, code: string)
    requires NumberOf(a0, RequiredFlowRate) == Ok(q)
    requires BoreLifetimeYear in a0 && a0[BoreLifetimeYear] == Text(code)
    ensures var a2 := a0[RequiredFlowRatePerLitreSec := Num(q / 86.4)][RequiredFlowRatePerM3Sec := Num(q / 86400.0)]
                        [BoreLifetimePerDay := Text(Repeated(code, 365))];
            InitialisedFlows(a0, layers, layerInput, casingRows, drillingRows) ==
            if layerInput.None? then InitState(a2, layers, Raised(ValueError))
            else InitialisedLayers(a2, layerInput.value, casingRows, drillingRows)
  {
    InitialisedFlowsCases(a0, layers, layerInput, casingRows, drillingRows);
  }

  /**
   * With the default target layer, a store that initialises and whose top aquifer is the
   * first layer of the table also passes the stand-alone feasibility check.
   */
  lemma {:induction false} InitialisationImpliesFeasibility(attrs: map<Attr, Value>, layers: seq<Layer>,
                                                            kwargs: map<Attr, Value>, layerInput: Option<seq<Layer>>,
                                                            casingRows: nat, drillingRows: nat)
    requires Initialised(attrs, layers, kwargs, layerInput, casingRows, drillingRows).status.Done?
    requires var st := Initialised(attrs, layers, kwargs, layerInput, casingRows, drillingRows);
             st.attrs[TargetAquiferLayer] == Text(DefaultTargetLayer) &&
             |st.layers| > 0 && st.attrs[TopAquiferLayer] == Text(st.layers[0].code)
    ensures CheckInitialCalculationFeasibility(Codes(layerInput.value)).Ok?
  {
    InitialisedMeaning(attrs, layers, kwargs, layerInput, casingRows, drillingRows);
    var st := Initialised(attrs, layers, kwargs, layerInput, casingRows, drillingRows);
    var codes := Codes(st.layers);
    var k :| 0 <= k < |st.layers| - 1 && st.layers[k].code == st.attrs[TargetAquiferLayer].s;
    assert codes[k] == DefaultTargetLayer;
    assert codes[0] == st.attrs[TopAquiferLayer].s;
    FeasibleIff(codes, None, DefaultTargetLayer);
  }

  /** What `_get_diameter_table` returns: a whole catalog or one column of it. */
  datatype DiameterSelection = WholeTable(table: DiameterTable) | Column(values: seq<real>)

  /**
   * `_get_diameter_table` on a chosen catalog: the whole table for no metric or a metric that
   * is not a column; the metres for `metres`; the inches for any other column name.
   */
  function SelectDiameters(dset: DiameterTable, metric: Option<string>): (r: DiameterSelection)
    ensures metric.None? || metric.value !in dset.Columns() ==> r == WholeTable(dset)
    ensures metric == Some("metres") ==> r == Column(dset.Metres())
    ensures metric.Some? && metric.value in dset.Columns() && metric.value != "metres" ==> r == Column(dset.Inches())
  {
    if metric.None? || metric.value !in dset.Columns() then WholeTable(dset)
    else if metric.value == "metres" then Column(dset.Metres())
    else Column(dset.Inches())
  }

  /** Even the recommended column's own name returns inches. */
  lemma {:induction false} RecommendedColumnGivesInches(dset: DiameterTable)
    requires dset.recommendedColumn != "metres"
    ensures SelectDiameters(dset, Some(dset.recommendedColumn)) == Column(dset.Inches())
  {
    assert dset.recommendedColumn in dset.Columns();
  }
}
