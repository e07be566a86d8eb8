/**
 * The production screen choice: every catalog casing is a candidate production casing; each
 * gets its up-hole friction, the least screen diameter that friction allows, that diameter
 * snapped one catalog size up, and the total casing metric.  The screen chosen is the one of
 * the first candidate with the least defined total casing.
 */
module ScreenSelection {
  import opened Wrappers
  import opened Numerics
  import opened CalcUtils
  import opened CalcScreen
  import opened StoreTypes

  /** The screen diameter of a candidate is a number wherever its total casing is defined. */
  predicate RowConsistent(row: ScreenRow)
  {
    row.totalCasing.NaN? || row.screenDiameter.Finite?
  }

  /**
   * The selected screen of a row: NaN for a NaN minimum, otherwise one catalog size above the
   * minimum (a lookup with nothing above raises ValueError).
   */
  function SelectedScreen(minimum: Float, casing: seq<real>): (r: Result<Float>)
    ensures minimum.NaN? ==> r == Ok(NaN)
    ensures r.Err? ==> r.error == ValueError
    ensures r.Ok? && !minimum.NaN? ==> r.value.Finite? && r.value.value in casing
    ensures minimum.Finite? ==> (r.Ok? <==> exists c :: c in casing && c > minimum.value)
    ensures minimum.Finite? && r.Ok? ==>
              r.value.value > minimum.value &&
              forall c :: c in casing && c > minimum.value ==> r.value.value <= c
  {
    if minimum.NaN? then Ok(NaN)
    else
      var s :- FindNextLargestFloat(minimum, casing);
      Ok(Finite(s))
  }

  /**
   * One row of the screen stage table for production casing `c`: friction, minimum and
   * selected screen, and total casing with the intermediate casing ending 10 m above the screen.
   */
  function ScreenCandidate(c: real, casing: seq<real>, depthToTopScreen: real, flow: real, screenLength: real,
                           roughness: real, m: MathLib): (r: Result<ScreenRow>)
    ensures r.Err? ==> r.error == ValueError
    ensures r.Ok? ==> r.value.casingDiameter == c && RowConsistent(r.value)
    ensures r.Ok? ==> r.value.screenDiameter.NaN? || (r.value.screenDiameter.Finite? && r.value.screenDiameter.value in casing)
    ensures r.Ok? && !r.value.totalCasing.NaN? ==> r.value.screenDiameter.value < c
  {
    var friction := CasingFriction(depthToTopScreen, flow, c, m, roughness);
    var minimum := MinScreenDiameterOf(friction, screenLength, flow, m, roughness);
    var selected :- SelectedScreen(minimum, casing);
    Ok(ScreenRow(c, friction, minimum, selected, TotalCasingOf(c, selected, depthToTopScreen - 10.0, screenLength)))
  }

  /** The screen stage table: one candidate per catalog casing, in order, or the first lookup error. */
  predicate TableOfCandidates(r: Result<seq<ScreenRow>>, casing: seq<real>, depthToTopScreen: real, flow: real,
                              screenLength: real, roughness: real, m: MathLib)
  {
    (r.Err? <==> exists i :: 0 <= i < |casing| &&
                   ScreenCandidate(casing[i], casing, depthToTopScreen, flow, screenLength, roughness, m).Err?) &&
    (r.Err? ==> r.error == ValueError) &&
    (r.Ok? ==> |r.value| == |casing| &&
               forall i :: 0 <= i < |casing| ==>
                 ScreenCandidate(casing[i], casing, depthToTopScreen, flow, screenLength, roughness, m) == Ok(r.value[i]))
  }

  /** The screen stage table as a value: the candidates of the whole catalog, or ValueError if one lookup fails. */
  function ScreenTableOf(casing: seq<real>, depthToTopScreen: real, flow: real, screenLength: real,
                         roughness: real, m: MathLib): (r: Result<seq<ScreenRow>>)
    ensures TableOfCandidates(r, casing, depthToTopScreen, flow, screenLength, roughness, m)
    ensures r.Ok? ==> forall i :: 0 <= i < |r.value| ==> RowConsistent(r.value[i])
  {
    if exists i :: 0 <= i < |casing| &&
         ScreenCandidate(casing[i], casing, depthToTopScreen, flow, screenLength, roughness, m).Err?
    then Err(ValueError)
    else Ok(seq(|casing|, i requires 0 <= i < |casing| =>
                ScreenCandidate(casing[i], casing, depthToTopScreen, flow, screenLength, roughness, m).value))
  }

  /** The candidate description leaves one table and one error: any two tables it describes are equal. */
  lemma {:induction false} CandidatesDetermineTable(r1: Result<seq<ScreenRow>>, r2: Result<seq<ScreenRow>>,
                                                    casing: seq<real>, depthToTopScreen: real, flow: real,
                                                    screenLength: real, roughness: real, m: MathLib)
    requires TableOfCandidates(r1, casing, depthToTopScreen, flow, screenLength, roughness, m)
    requires TableOfCandidates(r2, casing, depthToTopScreen, flow, screenLength, roughness, m)
    ensures r1 == r2
  {
    if r1.Ok? {
      assert r2.Ok?;
      assert forall i :: 0 <= i < |casing| ==> r1.value[i] == r2.value[i] by {
        forall i | 0 <= i < |casing| ensures r1.value[i] == r2.value[i] {
          assert Ok(r1.value[i]) == Ok(r2.value[i]);
        }
      }
      assert r1.value == r2.value;
    }
  }

  /**
   * The screen stage columns as the pipeline fills them: the frictions for the whole catalog,
   * the minimum diameters from the array helper, then the selected screen and total casing
   * row by row.
   */
  method BuildScreenTable(casing: seq<real>, depthToTopScreen: real, flow: real, screenLength: real,
                          roughness: real, m: MathLib)
    returns (r: Result<seq<ScreenRow>>)
    ensures r == ScreenTableOf(casing, depthToTopScreen, flow, screenLength, roughness, m)
  {
    r := BuildScreenColumns(casing, depthToTopScreen, flow, screenLength, roughness, m);
    CandidatesDetermineTable(r, ScreenTableOf(casing, depthToTopScreen, flow, screenLength, roughness, m),
                             casing, depthToTopScreen, flow, screenLength, roughness, m);
  }

  /** The column-by-column construction behind `BuildScreenTable`. */
  method BuildScreenColumns(casing: seq<real>, depthToTopScreen: real, flow: real, screenLength: real,
                            roughness: real, m: MathLib)
    returns (r: Result<seq<ScreenRow>>)
    ensures TableOfCandidates(r, casing, depthToTopScreen, flow, screenLength, roughness, m)
  {
    var frictions := seq(|casing|, i requires 0 <= i < |casing| => CasingFriction(depthToTopScreen, flow, casing[i], m, roughness));
    var minimumColumn := MinimumScreenDiameter(frictions, screenLength, flow, m, roughness);
    var minimums := minimumColumn[..];
    var rows: seq<ScreenRow> := [];
    for i := 0 to |casing|
      invariant |rows| == i
      invariant forall j :: 0 <= j < i ==>
                  ScreenCandidate(casing[j], casing, depthToTopScreen, flow, screenLength, roughness, m) == Ok(rows[j])
    {
      assert frictions[i] == CasingFriction(depthToTopScreen, flow, casing[i], m, roughness);
      assert minimums[i] == MinScreenDiameterOf(frictions[i], screenLength, flow, m, roughness);
      var selected := SelectedScreen(minimums[i], casing);
      if selected.Err? {
        assert ScreenCandidate(casing[i], casing, depthToTopScreen, flow, screenLength, roughness, m).Err?;
        return Err(selected.error);
      }
      var total := TotalCasing(casing[i], selected.value, depthToTopScreen - 10.0, screenLength);
      rows := rows + [ScreenRow(casing[i], frictions[i], minimums[i], selected.value, total)];
    }
    return Ok(rows);
  }

  /** The numpy order on non-NaN float64 cells: -inf below every number, +inf above. */
  predicate Below(a: Float, b: Float)
  {
    match a
    case NegInf => !b.NegInf? && !b.NaN?
    case Finite(x) => b.PosInf? || (b.Finite? && x < b.value)
    case PosInf => false
    case NaN => false
  }

  /**
   * `Series.argmin(skipna=True)`: the position of the first least non-NaN value; `None` when
   * every value is NaN (pandas refuses an all-NaN argmin).
   */
  function ArgMinSkipNaN(s: seq<Float>): (k: Option<nat>)
    ensures k.None? <==> forall i :: 0 <= i < |s| ==> s[i].NaN?
    ensures k.Some? ==> k.value < |s| && !s[k.value].NaN?
    ensures k.Some? ==> forall j :: 0 <= j < |s| && !s[j].NaN? ==> !Below(s[j], s[k.value])
    ensures k.Some? ==> forall j :: 0 <= j < k.value && !s[j].NaN? ==> Below(s[k.value], s[j])
    decreases |s|
  {
    if s == [] then None
    else
      assert forall i :: 1 <= i < |s| ==> s[1..][i - 1] == s[i];
      match ArgMinSkipNaN(s[1..])
      case None => if s[0].NaN? then None else Some(0)
      case Some(k) => if s[0].NaN? || Below(s[k + 1], s[0]) then Some(k + 1) else Some(0)
  }

  /** The total casing column. */
  function Totals(rows: seq<ScreenRow>): (t: seq<Float>)
    ensures |t| == |rows| && forall i :: 0 <= i < |rows| ==> t[i] == rows[i].totalCasing
  {
    seq(|rows|, i requires 0 <= i < |rows| => rows[i].totalCasing)
  }

  /**
   * `min_total_casing_production_screen_diameter`: the selected screen of the first row with
   * the least defined total casing; ValueError when no total casing is defined.
   */
  function MinTotalScreenDiameter(rows: seq<ScreenRow>): (r: Result<real>)
    requires forall i :: 0 <= i < |rows| ==> RowConsistent(rows[i])
    ensures r.Err? <==> forall i :: 0 <= i < |rows| ==> rows[i].totalCasing.NaN?
    ensures r.Err? ==> r.error == ValueError
    ensures r.Ok? ==> exists k :: 0 <= k < |rows| && rows[k].screenDiameter == Finite(r.value) &&
                                  !rows[k].totalCasing.NaN? &&
                                  (forall j :: 0 <= j < |rows| && !rows[j].totalCasing.NaN? ==>
                                     !Below(rows[j].totalCasing, rows[k].totalCasing)) &&
                                  (forall j :: 0 <= j < k && !rows[j].totalCasing.NaN? ==>
                                     Below(rows[k].totalCasing, rows[j].totalCasing))
  {
    match ArgMinSkipNaN(Totals(rows))
    case None => Err(ValueError)
    case Some(k) =>
      assert RowConsistent(rows[k]);
      Ok(rows[k].screenDiameter.value)
  }

  /**
   * The production screen: the least-total-casing choice and, as the screen diameter, the larger
   * of it and the smallest catalog casing (Python's `max`, so the choice wins a tie).
   */
  function ProductionScreenChoice(rows: seq<ScreenRow>, casing: seq<real>): (r: Result<(real, real)>)
    requires |rows| == |casing|
    requires forall i :: 0 <= i < |rows| ==> RowConsistent(rows[i])
    ensures r.Err? <==> MinTotalScreenDiameter(rows).Err?
    ensures r.Err? ==> r.error == ValueError
    ensures r.Ok? ==> |casing| > 0 && r.value.0 == MinTotalScreenDiameter(rows).value &&
                      r.value.1 >= r.value.0 && r.value.1 >= casing[0] &&
                      (r.value.1 == r.value.0 || (r.value.1 == casing[0] && casing[0] > r.value.0))
  {
    var minTotal :- MinTotalScreenDiameter(rows);
    Ok((minTotal, Max(minTotal, casing[0])))
  }

  /**
   * The chosen screen is a catalog size, strictly narrower than the production casing of its
   * row and wider than the least diameter that row's friction allows.
   */
  lemma {:induction false} MinTotalIsFeasibleCatalogSize(rows: seq<ScreenRow>, casing: seq<real>,
                                                         depthToTopScreen: real, flow: real, screenLength: real,
                                                         roughness: real, m: MathLib)
    requires TableOfCandidates(Ok(rows), casing, depthToTopScreen, flow, screenLength, roughness, m)
    requires forall i :: 0 <= i < |rows| ==> RowConsistent(rows[i])
    requires MinTotalScreenDiameter(rows).Ok?
    ensures var d := MinTotalScreenDiameter(rows).value;
            d in casing &&
            exists k :: 0 <= k < |rows| && d < rows[k].casingDiameter && rows[k].screenDiameter == Finite(d) &&
                        (rows[k].minimumScreenDiameter.NaN? || Below(rows[k].minimumScreenDiameter, Finite(d)))
  {
    var d := MinTotalScreenDiameter(rows).value;
    var k :| 0 <= k < |rows| && rows[k].screenDiameter == Finite(d) && !rows[k].totalCasing.NaN?;
    assert ScreenCandidate(casing[k], casing, depthToTopScreen, flow, screenLength, roughness, m) == Ok(rows[k]);
    CandidateScreenFits(casing[k], casing, depthToTopScreen, flow, screenLength, roughness, m, rows[k], d);
  }

  /**
   * A candidate row with a total casing has a screen that is a catalog size, narrower than the
   * row's casing and wider than the row's least allowed diameter.
   */
  lemma CandidateScreenFits(c: real, casing: seq<real>, depthToTopScreen: real, flow: real, screenLength: real,
                            roughness: real, m: MathLib, row: ScreenRow, d: real)
    requires ScreenCandidate(c, casing, depthToTopScreen, flow, screenLength, roughness, m) == Ok(row)
    requires row.screenDiameter == Finite(d) && !row.totalCasing.NaN?
    ensures d in casing && d < row.casingDiameter &&
            (row.minimumScreenDiameter.NaN? || Below(row.minimumScreenDiameter, Finite(d)))
  {
    var friction := CasingFriction(depthToTopScreen, flow, c, m, roughness);
    var minimum := MinScreenDiameterOf(friction, screenLength, flow, m, roughness);
    assert row.minimumScreenDiameter == minimum;
    assert SelectedScreen(minimum, casing) == Ok(Finite(d));
  }
}
