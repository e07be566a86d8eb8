/**
 * The nominal diameter catalogs a wellbore design is chosen from: casing sizes with their
 * recommended drill bits, and drilling sizes with their recommended screens.
 */
module Catalogs {

  /** One catalog row: a nominal size in inches, the same size in metres, and the size recommended with it. */
  datatype DiameterRow = DiameterRow(inches: real, metres: real, recommended: real)

  /**
   * A catalog table with the columns `inches`, `metres` and a third column whose name says what
   * is recommended (`recommended_bit` for casings, `recommended_screen` for drilling sizes).
   */
  datatype DiameterTable = DiameterTable(recommendedColumn: string, rows: seq<DiameterRow>)
  {
    function Columns(): (cs: seq<string>)
      ensures |cs| == 3 && cs[0] == "inches" && cs[1] == "metres"
    {
      ["inches", "metres", recommendedColumn]
    }

    /** The `metres` column, in row order. */
    function Metres(): (m: seq<real>)
      ensures |m| == |rows|
      ensures forall i :: 0 <= i < |rows| ==> m[i] == rows[i].metres
    {
      seq(|rows|, i requires 0 <= i < |rows| => rows[i].metres)
    }

    /** The `inches` column, in row order. */
    function Inches(): (m: seq<real>)
      ensures |m| == |rows|
      ensures forall i :: 0 <= i < |rows| ==> m[i] == rows[i].inches
    {
      seq(|rows|, i requires 0 <= i < |rows| => rows[i].inches)
    }

    /** The third column, in row order. */
    function Recommended(): (m: seq<real>)
      ensures |m| == |rows|
      ensures forall i :: 0 <= i < |rows| ==> m[i] == rows[i].recommended
    {
      seq(|rows|, i requires 0 <= i < |rows| => rows[i].recommended)
    }
  }

  /** The value in column `j` (0 inches, 1 metres, 2 the recommended size) of a row. */
  function Cell(row: DiameterRow, j: nat): real
    requires j < 3
  {
    if j == 0 then row.inches else if j == 1 then row.metres else row.recommended
  }

  predicate StrictlyIncreasing(s: seq<real>)
  {
    forall i :: 0 < i < |s| ==> s[i - 1] < s[i]
  }

  function CasingRows(inches: seq<real>, metres: seq<real>, bits: seq<real>): (rows: seq<DiameterRow>)
    requires |inches| == |metres| == |bits|
    ensures |rows| == |inches|
    ensures forall i :: 0 <= i < |rows| ==> rows[i] == DiameterRow(inches[i], metres[i], bits[i])
  {
    seq(|inches|, i requires 0 <= i < |inches| => DiameterRow(inches[i], metres[i], bits[i]))
  }

  const DefaultCasingInches: seq<real> :=
    [4.0, 4.5, 5.0, 5.5, 6.625, 7.0, 8.625, 9.625, 10.75, 13.375, 18.625, 20.0, 24.0, 30.0]
  const DefaultCasingMetres: seq<real> :=
    [0.1016, 0.1143, 0.127, 0.1397, 0.168275, 0.1778, 0.219075, 0.244475, 0.27305, 0.339725,
     0.473075, 0.508, 0.6096, 0.762]
  const DefaultRecommendedBits: seq<real> :=
    [0.1905, 0.2159, 0.2159, 0.2286, 0.269875, 0.269875, 0.31115, 0.34925, 0.381, 0.4445,
     0.6096, 0.6096, 0.7112, 0.9144]

  const DefaultDrillingInches: seq<real> :=
    [7.5, 8.5, 9.0, 9.5, 10.625, 11.625, 12.25, 13.75, 15.0, 16.0, 17.5, 18.5, 20.0, 22.0, 24.0,
     26.0, 28.0, 30.0, 32.0, 34.0, 36.0]
  const DefaultDrillingMetres: seq<real> :=
    [0.1905, 0.2159, 0.2286, 0.2413, 0.269875, 0.295275, 0.31115, 0.34925, 0.381, 0.4064, 0.4445,
     0.4699, 0.508, 0.5588, 0.6096, 0.6604, 0.7112, 0.762, 0.8128, 0.8636, 0.9144]
  const DefaultRecommendedScreens: seq<real> :=
    [0.1016, 0.1143, 0.127, 0.1397, 0.168275, 0.1778, 0.1778, 0.244475, 0.27305, 0.27305, 0.339725,
     0.339725, 0.339725, 0.339725, 0.508, 0.508, 0.6096, 0.6096, 0.6096, 0.762, 0.762]

  /** The casing catalog a store starts with: fourteen nominal casing sizes. */
  function DefaultCasingTable(): (t: DiameterTable)
    ensures |t.rows| == 14 && t.recommendedColumn == "recommended_bit"
    ensures t.Metres() == DefaultCasingMetres && t.Recommended() == DefaultRecommendedBits
    ensures t.Inches() == DefaultCasingInches
  {
    DiameterTable("recommended_bit", CasingRows(DefaultCasingInches, DefaultCasingMetres, DefaultRecommendedBits))
  }

  /** The drilling catalog a store starts with: twenty-one nominal drilling sizes. */
  function DefaultDrillingTable(): (t: DiameterTable)
    ensures |t.rows| == 21 && t.recommendedColumn == "recommended_screen"
    ensures t.Metres() == DefaultDrillingMetres && t.Recommended() == DefaultRecommendedScreens
    ensures t.Inches() == DefaultDrillingInches
  {
    DiameterTable("recommended_screen", CasingRows(DefaultDrillingInches, DefaultDrillingMetres, DefaultRecommendedScreens))
  }

  /** Both default catalogs list their sizes in strictly increasing order, in metres and in inches. */
  lemma DefaultCatalogsAscend()
    ensures StrictlyIncreasing(DefaultCasingTable().Metres())
    ensures StrictlyIncreasing(DefaultCasingTable().Inches())
    ensures StrictlyIncreasing(DefaultDrillingTable().Metres())
    ensures StrictlyIncreasing(DefaultDrillingTable().Inches())
  {
    CasingSizesAscend();
    DrillingSizesAscend();
  }

  /** The default casing sizes ascend, in metres and in inches. */
  lemma CasingSizesAscend()
    ensures StrictlyIncreasing(DefaultCasingMetres) && StrictlyIncreasing(DefaultCasingInches)
  {
    forall i | 0 < i < |DefaultCasingMetres|
      ensures DefaultCasingMetres[i - 1] < DefaultCasingMetres[i] && DefaultCasingInches[i - 1] < DefaultCasingInches[i]
    {
    }
  }

  /** The default drilling sizes ascend, in metres and in inches. */
  lemma DrillingSizesAscend()
    ensures StrictlyIncreasing(DefaultDrillingMetres) && StrictlyIncreasing(DefaultDrillingInches)
  {
    forall i | 0 < i < |DefaultDrillingMetres|
      ensures DefaultDrillingMetres[i - 1] < DefaultDrillingMetres[i] &&
              DefaultDrillingInches[i - 1] < DefaultDrillingInches[i]
    {
    }
  }

  /**
   * Every recommended drill bit is a drilling size wider than its casing, and every
   * recommended screen is a casing size narrower than its drilling size.
   */
  lemma DefaultRecommendationsFit()
    ensures forall r :: r in DefaultCasingTable().rows ==>
              r.recommended in DefaultDrillingMetres && r.recommended > r.metres
    ensures forall r :: r in DefaultDrillingTable().rows ==>
              r.recommended in DefaultCasingMetres && r.recommended < r.metres
  {
    RecommendedBitsFit();
    RecommendedScreensFit();
    var casing := DefaultCasingTable().rows;
    forall r | r in casing
      ensures r.recommended in DefaultDrillingMetres && r.recommended > r.metres
    {
      var i :| 0 <= i < |casing| && casing[i] == r;
    }
    var drilling := DefaultDrillingTable().rows;
    forall r | r in drilling
      ensures r.recommended in DefaultCasingMetres && r.recommended < r.metres
    {
      var i :| 0 <= i < |drilling| && drilling[i] == r;
    }
  }

  /** Each default casing's recommended bit is a drilling size, wider than the casing. */
  lemma RecommendedBitsFit()
    ensures forall i :: 0 <= i < |DefaultRecommendedBits| ==>
              DefaultRecommendedBits[i] in DefaultDrillingMetres && DefaultRecommendedBits[i] > DefaultCasingMetres[i]
  {
    var size := [0, 1, 1, 2, 4, 4, 6, 7, 8, 10, 14, 14, 16, 20];
    forall i | 0 <= i < |DefaultRecommendedBits|
      ensures DefaultRecommendedBits[i] in DefaultDrillingMetres && DefaultRecommendedBits[i] > DefaultCasingMetres[i]
    {
      assert DefaultDrillingMetres[size[i]] == DefaultRecommendedBits[i];
    }
  }

  /** Each default drilling size's recommended screen is a casing size, narrower than the hole. */
  lemma RecommendedScreensFit()
    ensures forall i :: 0 <= i < |DefaultRecommendedScreens| ==>
              DefaultRecommendedScreens[i] in DefaultCasingMetres &&
              DefaultRecommendedScreens[i] < DefaultDrillingMetres[i]
  {
    var size := [0, 1, 2, 3, 4, 5, 5, 7, 8, 8, 9, 9, 9, 9, 11, 11, 12, 12, 12, 13, 13];
    forall i | 0 <= i < |DefaultRecommendedScreens|
      ensures DefaultRecommendedScreens[i] in DefaultCasingMetres &&
              DefaultRecommendedScreens[i] < DefaultDrillingMetres[i]
    {
      assert DefaultCasingMetres[size[i]] == DefaultRecommendedScreens[i];
    }
  }
}
