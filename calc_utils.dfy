/**
 * Catalog lookups shared by every stage: the nearest catalog size to a value, the next
 * nominal size up, and a row query on a diameter table.
 */
module CalcUtils {
  import opened Wrappers
  import opened Numerics
  import opened Catalogs

  /** The boolean-mask test `x > val` (strict) or `x >= val`. */
  predicate Admits(x: real, val: real, strict: bool)
  {
    if strict then x > val else x >= val
  }

  /** `x` is the next catalog size above `bound`: listed, strictly above it, and no larger than any listed size above it. */
  predicate IsNextSizeAbove(x: real, sizes: seq<real>, bound: real)
  {
    x in sizes && x > bound && forall y :: y in sizes && y > bound ==> x <= y
  }

  /** `arr[arr > val]` (strict) or `arr[arr >= val]`: the entries passing the mask, in order. */
  function Keep(arr: seq<real>, val: real, strict: bool): (kept: seq<real>)
    ensures |kept| <= |arr|
    ensures forall x :: x in kept <==> x in arr && Admits(x, val, strict)
  {
    if arr == [] then []
    else (if Admits(arr[0], val, strict) then [arr[0]] else []) + Keep(arr[1..], val, strict)
  }

  /** `numpy.argmin(numpy.abs(s - val))`: an index of least distance to `val`, the first one on ties. */
  function ArgMinDistance(s: seq<real>, val: real): (k: nat)
    requires |s| > 0
    ensures k < |s|
    ensures forall j :: 0 <= j < |s| ==> Abs(s[k] - val) <= Abs(s[j] - val)
    ensures forall j :: 0 <= j < k ==> Abs(s[k] - val) < Abs(s[j] - val)
    decreases |s|
  {
    if |s| == 1 then 0
    else
      var k := ArgMinDistance(s[1..], val) + 1;
      assert s[k] == s[1..][k - 1];
      if Abs(s[0] - val) <= Abs(s[k] - val) then 0 else k
  }

  /** The values `find_nearest_value` chooses among. */
  function Candidates(val: real, arr: seq<real>, largerThanOrEqualVal: bool, oneSizeLarger: bool): seq<real>
  {
    if largerThanOrEqualVal then Keep(arr, val, oneSizeLarger) else arr
  }

  /**
   * `find_nearest_value`: the candidate closest to `val`, the first on ties; numpy's argmin of
   * an empty selection raises ValueError.
   */
  function FindNearestValue(val: real, arr: seq<real>, largerThanOrEqualVal: bool := true,
                            oneSizeLarger: bool := false): (r: Result<real>)
    ensures r.Err? <==> Candidates(val, arr, largerThanOrEqualVal, oneSizeLarger) == []
    ensures r.Err? ==> r.error == ValueError
    ensures r.Ok? ==> r.value in arr
    ensures r.Ok? && largerThanOrEqualVal ==> Admits(r.value, val, oneSizeLarger)
    ensures r.Ok? ==> forall x :: x in Candidates(val, arr, largerThanOrEqualVal, oneSizeLarger) ==>
                        Abs(r.value - val) <= Abs(x - val)
  {
    var valid := Candidates(val, arr, largerThanOrEqualVal, oneSizeLarger);
    if valid == [] then Err(ValueError)
    else
      var k := ArgMinDistance(valid, val);
      assert valid[k] in valid;
      Ok(valid[k])
  }

  /**
   * `find_next_largest_value`: the smallest catalog entry strictly larger than `val`, i.e. one
   * nominal size up; ValueError when no entry is larger.
   */
  function FindNextLargestValue(val: real, arr: seq<real>): (r: Result<real>)
    ensures r.Ok? <==> exists x :: x in arr && x > val
    ensures r.Err? ==> r.error == ValueError
    ensures r.Ok? ==> r.value in arr && r.value > val
    ensures r.Ok? ==> forall x :: x in arr && x > val ==> r.value <= x
  {
    assert forall x :: x in arr && x > val ==> x in Keep(arr, val, true);
    FindNearestValue(val, arr, true, true)
  }

  /** The numpy lookup of a float64 cell: NaN and +inf have nothing above them; -inf is below every entry. */
  function FindNextLargestFloat(val: Float, arr: seq<real>): (r: Result<real>)
    ensures val.Finite? ==> r == FindNextLargestValue(val.value, arr)
    ensures val.NaN? || val.PosInf? ==> r == Err(ValueError)
    ensures val.NegInf? ==> r == (if arr == [] then Err(ValueError) else Ok(arr[0]))
  {
    match val
    case Finite(v) => FindNextLargestValue(v, arr)
    case NaN => Err(ValueError)
    case PosInf => Err(ValueError)
    case NegInf => if arr == [] then Err(ValueError) else Ok(arr[0])
  }

  /** With the default flags the lookup is a ceiling: the least entry at or above `val`, `val` itself when listed. */
  lemma NearestDefaultIsCeiling(val: real, arr: seq<real>)
    ensures FindNearestValue(val, arr).Ok? <==> exists x :: x in arr && x >= val
    ensures FindNearestValue(val, arr).Ok? ==>
              var c := FindNearestValue(val, arr).value;
              c >= val && forall x :: x in arr && x >= val ==> c <= x
    ensures val in arr ==> FindNearestValue(val, arr) == Ok(val)
  {
    assert forall x :: x in arr && x >= val ==> x in Keep(arr, val, false);
  }

  /** Without the lower bound the lookup minimises the distance over the whole array, first index on ties. */
  lemma NearestUnrestrictedIsFirstClosest(val: real, arr: seq<real>, oneSizeLarger: bool)
    ensures FindNearestValue(val, arr, false, oneSizeLarger).Err? <==> arr == []
    ensures arr != [] ==>
              exists k :: 0 <= k < |arr| && FindNearestValue(val, arr, false, oneSizeLarger) == Ok(arr[k]) &&
                (forall j :: 0 <= j < |arr| ==> Abs(arr[k] - val) <= Abs(arr[j] - val)) &&
                (forall j :: 0 <= j < k ==> Abs(arr[k] - val) < Abs(arr[j] - val))
  {
    if arr != [] {
      var k := ArgMinDistance(arr, val);
      assert FindNearestValue(val, arr, false, oneSizeLarger) == Ok(arr[k]);
    }
  }

  /** On an ascending catalog the next size up from a listed size is the entry right after it. */
  lemma {:induction false} NextLargestOfListedSize(arr: seq<real>, i: nat)
    requires StrictlyIncreasing(arr)
    requires i + 1 < |arr|
    ensures FindNextLargestValue(arr[i], arr) == Ok(arr[i + 1])
  {
    AscendingOrder(arr);
    var r := FindNextLargestValue(arr[i], arr);
    assert arr[i + 1] in arr && arr[i + 1] > arr[i];
    var j :| 0 <= j < |arr| && arr[j] == r.value;
    assert j == i + 1;
  }

  /** Walking up the catalog from a value between two neighbours lands on the upper neighbour. */
  lemma {:induction false} NextLargestBetweenNeighbours(arr: seq<real>, i: nat, val: real)
    requires StrictlyIncreasing(arr)
    requires i + 1 < |arr|
    requires arr[i] <= val < arr[i + 1]
    ensures FindNextLargestValue(val, arr) == Ok(arr[i + 1])
  {
    AscendingOrder(arr);
    var r := FindNextLargestValue(val, arr);
    assert arr[i + 1] in arr && arr[i + 1] > val;
    var j :| 0 <= j < |arr| && arr[j] == r.value;
    assert j == i + 1;
  }

  /** Consecutive increase gives increase between any two positions. */
  lemma {:induction false} AscendingOrder(arr: seq<real>)
    requires StrictlyIncreasing(arr)
    ensures forall a, b :: 0 <= a < b < |arr| ==> arr[a] < arr[b]
  {
    forall a, b | 0 <= a < b < |arr|
      ensures arr[a] < arr[b]
    {
      var c := a;
      while c < b
        invariant a <= c <= b
        invariant arr[a] <= arr[c]
        invariant c > a ==> arr[a] < arr[c]
      {
        c := c + 1;
      }
    }
  }

  /** The position of a column name in a table's columns (the first, when repeated). */
  function ColumnIndex(columns: seq<string>, name: string): (j: Option<nat>)
    ensures j.None? <==> name !in columns
    ensures j.Some? ==> j.value < |columns| && columns[j.value] == name &&
                        forall i :: 0 <= i < j.value ==> columns[i] != name
  {
    if columns == [] then None
    else if columns[0] == name then Some(0)
    else match ColumnIndex(columns[1..], name)
      case None => None
      case Some(j) => Some(j + 1)
  }

  /** The index of the first row whose column `j` equals `val` exactly. */
  function FirstMatch(rows: seq<DiameterRow>, j: nat, val: real): (k: Option<nat>)
    requires j < 3
    ensures k.None? <==> forall i :: 0 <= i < |rows| ==> Cell(rows[i], j) != val
    ensures k.Some? ==> k.value < |rows| && Cell(rows[k.value], j) == val &&
                        forall i :: 0 <= i < k.value ==> Cell(rows[i], j) != val
  {
    if rows == [] then None
    else if Cell(rows[0], j) == val then Some(0)
    else match FirstMatch(rows[1..], j, val)
      case None => None
      case Some(k) =>
        assert forall i :: 1 <= i <= k ==> rows[i] == rows[1..][i - 1];
        Some(k + 1)
  }

  /**
   * `query_diameter_table`: column `param` (negative counts from the end, as `iloc` does) of the
   * first row whose `metric` column equals `val`.  An unknown column is re-raised as KeyError,
   * an out-of-range position as IndexError, and "no match" surfaces as RuntimeError because the
   * generic handler wraps it.
   */
  function QueryDiameterTable(val: real, table: DiameterTable, metric: string := "metres",
                              param: int := 2): (r: Result<real>)
    ensures metric !in table.Columns() ==> r == Err(KeyError)
    ensures metric in table.Columns() ==>
              var j := ColumnIndex(table.Columns(), metric).value;
              (r == Err(RuntimeError) <==> forall i :: 0 <= i < |table.rows| ==> Cell(table.rows[i], j) != val)
    ensures r == Err(IndexError) <==>
              metric in table.Columns() && !(-3 <= param < 3) &&
              exists i :: 0 <= i < |table.rows| &&
                Cell(table.rows[i], ColumnIndex(table.Columns(), metric).value) == val
    ensures r.Ok? ==> exists i :: 0 <= i < |table.rows| &&
                        Cell(table.rows[i], ColumnIndex(table.Columns(), metric).value) == val &&
                        (forall j :: 0 <= j < i ==>
                           Cell(table.rows[j], ColumnIndex(table.Columns(), metric).value) != val) &&
                        r.value == Cell(table.rows[i], param % 3)
  {
    match ColumnIndex(table.Columns(), metric)
    case None => Err(KeyError)
    case Some(j) =>
      match FirstMatch(table.rows, j, val)
      case None => Err(RuntimeError)
      case Some(k) =>
        if -3 <= param < 3 then Ok(Cell(table.rows[k], param % 3)) else Err(IndexError)
  }

  /**
   * Looking a catalog size up by its own `metres` value returns that row's recommended size,
   * provided the metres column has no repeated entry.
   */
  lemma {:induction false} QueryRecommendedOfListedSize(table: DiameterTable, i: nat)
    requires i < |table.rows|
    requires forall a, b :: 0 <= a < b < |table.rows| ==> table.rows[a].metres != table.rows[b].metres
    ensures QueryDiameterTable(table.rows[i].metres, table) == Ok(table.rows[i].recommended)
  {
    assert table.Columns()[1] == "metres" && table.Columns()[0] != "metres";
    assert ColumnIndex(table.Columns(), "metres") == Some(1);
    var k := FirstMatch(table.rows, 1, table.rows[i].metres);
    assert k.Some?;
    assert Cell(table.rows[k.value], 1) == table.rows[i].metres;
    assert k.value == i;
  }
}
