/** The geology checks every design starts from, and the generic "value meets condition" test. */
module Validation {
  import opened Wrappers

  const DefaultTargetTopLayers: seq<string> := ["100qa", "102utqa"]
  const DefaultTargetLayer: string := "111lta"

  /** The position of the first layer with code `code`. */
  function LayerIndex(layers: seq<string>, code: string): (k: Option<nat>)
    ensures k.None? <==> code !in layers
    ensures k.Some? ==> k.value < |layers| && layers[k.value] == code &&
                        forall i :: 0 <= i < k.value ==> layers[i] != code
  {
    if layers == [] then None
    else if layers[0] == code then Some(0)
    else match LayerIndex(layers[1..], code)
      case None => None
      case Some(k) => Some(k + 1)
  }

  /**
   * `check_initial_calculation_feasibility` on the layer codes, top to bottom: the table is not
   * empty, the top layer is one of the allowed aquifers, the target layer is present and is not
   * the bottommost layer.  Each failed check raises ValueError; success returns `True`.
   */
  function CheckInitialCalculationFeasibility(layers: seq<string>, targetTopLayers: Option<seq<string>> := None,
                                              targetLayer: string := DefaultTargetLayer): (r: Result<bool>)
    ensures r.Err? ==> r.error == ValueError
    ensures r.Ok? ==> r.value
  {
    var allowed := if targetTopLayers.None? then DefaultTargetTopLayers else targetTopLayers.value;
    if |layers| == 0 then Err(ValueError)
    else if layers[0] !in allowed then Err(ValueError)
    else if targetLayer !in layers then Err(ValueError)
    else if LayerIndex(layers, targetLayer).value >= |layers| - 1 then Err(ValueError)
    else Ok(true)
  }

  /** The checks pass exactly when all four conditions hold, with the default top-layer list when none is given. */
  lemma {:induction false} FeasibleIff(layers: seq<string>, targetTopLayers: Option<seq<string>>, targetLayer: string)
    ensures var allowed := if targetTopLayers.None? then DefaultTargetTopLayers else targetTopLayers.value;
            CheckInitialCalculationFeasibility(layers, targetTopLayers, targetLayer).Ok? <==>
              |layers| > 0 && layers[0] in allowed &&
              exists k :: 0 <= k < |layers| - 1 && layers[k] == targetLayer
  {
    var allowed := if targetTopLayers.None? then DefaultTargetTopLayers else targetTopLayers.value;
    if |layers| > 0 && layers[0] in allowed && targetLayer in layers {
      var k := LayerIndex(layers, targetLayer).value;
      if k < |layers| - 1 {
        assert layers[k] == targetLayer;
      } else {
        assert forall j :: 0 <= j < |layers| - 1 ==> layers[j] != targetLayer;
      }
    }
  }

  /** With the defaults, a layer table whose top layer is not `100qa` or `102utqa` is rejected. */
  lemma {:induction false} DefaultTopLayerRule(layers: seq<string>)
    requires |layers| > 0 && layers[0] != "100qa" && layers[0] != "102utqa"
    ensures CheckInitialCalculationFeasibility(layers) == Err(ValueError)
  {
    assert layers[0] !in DefaultTargetTopLayers;
  }

  /** `validate`: the condition's verdict when a condition is given, `True` otherwise. */
  function Validate<T>(value: T, condition: Option<T -> bool> := None): (ok: bool)
    ensures condition.None? ==> ok
    ensures condition.Some? ==> (ok <==> condition.value(value))
  {
    if condition.Some? then condition.value(value) else true
  }
}
