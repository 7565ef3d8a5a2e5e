/** The farmer table: one CSV row per farmer, the load-time cleaning shared by the web service
    and the dashboard (median imputation of `Acreage` and `Fertilizer amount`, then the derived
    columns `Yield_per_acre` and `Surplus_score`), and the data frame that holds it column by column. */
module Farmers {
  import opened Wrappers
  import opened Rows
  import opened Imputation

  /** Kilograms of grain one household member needs per year. */
  const NEED_PER_PERSON: int := 50

  /** A household's yearly need, `Household size * 50`. */
  function HouseholdNeed(householdSize: int): int {
    householdSize * NEED_PER_PERSON
  }

  /** `Surplus_score = Yield - Household size * 50`. */
  function SurplusScore(cropYield: real, householdSize: int): real {
    cropYield - HouseholdNeed(householdSize) as real
  }

  /** A floating-point quotient: a finite value, or infinity / NaN when dividing by zero or NaN. */
  datatype Quotient = Finite(value: real) | NonFinite

  /** `Yield / Acreage`, with a missing acreage standing for NaN. */
  function YieldPerAcre(cropYield: real, acreage: Option<real>): (q: Quotient)
    ensures q.Finite? <==> acreage.Some? && acreage.value != 0.0
    ensures q.Finite? ==> q.value * acreage.value == cropYield
  {
    if acreage.Some? && acreage.value != 0.0 then Finite(cropYield / acreage.value) else NonFinite
  }

  /** One row of `corn_data.csv` as read, before cleaning. */
  datatype CsvRow = CsvRow(
    farmer: string,
    acreage: Option<real>,
    fertilizer: Option<real>,
    laborers: int,
    householdSize: int,
    cropYield: real,
    latitude: real,
    longitude: real,
    education: string)

  /** One row of the cleaned table, with its two derived columns. */
  datatype Farmer = Farmer(
    farmer: string,
    acreage: Option<real>,
    fertilizer: Option<real>,
    laborers: int,
    householdSize: int,
    cropYield: real,
    latitude: real,
    longitude: real,
    education: string,
    yieldPerAcre: Quotient,
    surplusScore: real)

  /** A farmer has surplus when the surplus score is strictly positive. */
  predicate IsSurplus(f: Farmer) {
    f.surplusScore > 0.0
  }

  /** The derived columns of a row agree with the columns they are computed from. */
  predicate WellScored(f: Farmer) {
    f.surplusScore == SurplusScore(f.cropYield, f.householdSize) &&
    f.yieldPerAcre == YieldPerAcre(f.cropYield, f.acreage)
  }

  function AcreageOf(r: CsvRow): Option<real> { r.acreage }
  function FertilizerOf(r: CsvRow): Option<real> { r.fertilizer }

  /** The table after cleaning, row by row: what the cleaning block leaves in the data frame. */
  function CleanTable(raw: seq<CsvRow>): (rows: seq<Farmer>)
    ensures |rows| == |raw|
  {
    var acreage := ImputeMedian(Map(AcreageOf, raw));
    var fertilizer := ImputeMedian(Map(FertilizerOf, raw));
    seq(|raw|, i requires 0 <= i < |raw| =>
      var r := raw[i];
      Farmer(r.farmer, acreage[i], fertilizer[i], r.laborers, r.householdSize, r.cropYield,
             r.latitude, r.longitude, r.education,
             YieldPerAcre(r.cropYield, acreage[i]), SurplusScore(r.cropYield, r.householdSize)))
  }

  /** Cleaning keeps every row and every source column except the two imputed ones; a present
      acreage or fertilizer amount is kept and a missing one becomes the median of the present
      values of its column; the derived columns are computed from the filled values. */
  lemma CleanTableFaithful(raw: seq<CsvRow>)
    ensures |CleanTable(raw)| == |raw|
    ensures forall i :: 0 <= i < |raw| ==>
      var r, f := raw[i], CleanTable(raw)[i];
      f.farmer == r.farmer && f.laborers == r.laborers && f.householdSize == r.householdSize &&
      f.cropYield == r.cropYield && f.latitude == r.latitude && f.longitude == r.longitude &&
      f.education == r.education
    ensures forall i :: 0 <= i < |raw| ==>
      CleanTable(raw)[i].acreage == if raw[i].acreage.Some? then raw[i].acreage else MedianFill(Map(AcreageOf, raw))
    ensures forall i :: 0 <= i < |raw| ==>
      CleanTable(raw)[i].fertilizer == if raw[i].fertilizer.Some? then raw[i].fertilizer else MedianFill(Map(FertilizerOf, raw))
    ensures forall i :: 0 <= i < |raw| ==> WellScored(CleanTable(raw)[i])
  {
  }

  /** `df['Yield'] / df['Acreage']`, element by element. */
  function YieldPerAcreColumn(cropYield: seq<real>, acreage: seq<Option<real>>): (q: seq<Quotient>)
    requires |acreage| == |cropYield|
    ensures |q| == |cropYield|
    ensures forall i :: 0 <= i < |q| ==> q[i] == YieldPerAcre(cropYield[i], acreage[i])
  {
    seq(|cropYield|, i requires 0 <= i < |cropYield| => YieldPerAcre(cropYield[i], acreage[i]))
  }

  /** `df['Yield'] - (df['Household size'] * 50)`, element by element. */
  function SurplusColumn(cropYield: seq<real>, householdSize: seq<int>): (s: seq<real>)
    requires |householdSize| == |cropYield|
    ensures |s| == |cropYield|
    ensures forall i :: 0 <= i < |s| ==> s[i] == SurplusScore(cropYield[i], householdSize[i])
  {
    seq(|cropYield|, i requires 0 <= i < |cropYield| => SurplusScore(cropYield[i], householdSize[i]))
  }

  /** The in-memory table: one sequence per column, all of the same length. The derived columns
      are absent until the frame is cleaned, and absent from the empty fallback frame; the
      cleaning block adds both together, so a valid frame has both or neither. */
  class DataFrame {
    var farmer: seq<string>
    var acreage: seq<Option<real>>
    var fertilizer: seq<Option<real>>
    var laborers: seq<int>
    var householdSize: seq<int>
    var cropYield: seq<real>
    var latitude: seq<real>
    var longitude: seq<real>
    var education: seq<string>
    var yieldPerAcre: Option<seq<Quotient>>
    var surplusScore: Option<seq<real>>

    ghost predicate Valid()
      reads this
    {
      var n := |farmer|;
      |acreage| == n && |fertilizer| == n && |laborers| == n && |householdSize| == n &&
      |cropYield| == n && |latitude| == n && |longitude| == n && |education| == n &&
      (yieldPerAcre.Some? ==> |yieldPerAcre.value| == n) &&
      (surplusScore.Some? ==> |surplusScore.value| == n) &&
      (yieldPerAcre.Some? <==> surplusScore.Some?)
    }

    /** Both derived columns exist. */
    predicate Scored()
      reads this
    {
      yieldPerAcre.Some? && surplusScore.Some?
    }

    /** The frame's source columns, read back as CSV rows. */
    function Records(): (rows: seq<CsvRow>)
      reads this
      requires Valid()
      ensures |rows| == |farmer|
    {
      var f, a, fe, l, h, y, la, lo, e := farmer, acreage, fertilizer, laborers, householdSize,
        cropYield, latitude, longitude, education;
      seq(|f|, i requires 0 <= i < |f| => CsvRow(f[i], a[i], fe[i], l[i], h[i], y[i], la[i], lo[i], e[i]))
    }

    /** The frame's rows, derived columns included. */
    function Rows(): (rows: seq<Farmer>)
      reads this
      requires Valid() && Scored()
      ensures |rows| == |farmer|
    {
      var f, a, fe, l, h, y, la, lo, e := farmer, acreage, fertilizer, laborers, householdSize,
        cropYield, latitude, longitude, education;
      var q, s := yieldPerAcre.value, surplusScore.value;
      seq(|f|, i requires 0 <= i < |f| =>
        Farmer(f[i], a[i], fe[i], l[i], h[i], y[i], la[i], lo[i], e[i], q[i], s[i]))
    }

    /** `pd.DataFrame()`: the fallback frame, with no rows and no derived columns. */
    constructor Empty()
      ensures Valid() && Records() == []
      ensures yieldPerAcre.None? && surplusScore.None?
    {
      farmer, acreage, fertilizer, laborers, householdSize := [], [], [], [], [];
      cropYield, latitude, longitude, education := [], [], [], [];
      yieldPerAcre, surplusScore := None, None;
    }

    /** `pd.read_csv`: a frame holding the given rows, not yet cleaned. */
    constructor ReadCsv(rows: seq<CsvRow>)
      ensures Valid() && Records() == rows
      ensures yieldPerAcre.None? && surplusScore.None?
    {
      farmer := Map((r: CsvRow) => r.farmer, rows);
      acreage := Map(AcreageOf, rows);
      fertilizer := Map(FertilizerOf, rows);
      laborers := Map((r: CsvRow) => r.laborers, rows);
      householdSize := Map((r: CsvRow) => r.householdSize, rows);
      cropYield := Map((r: CsvRow) => r.cropYield, rows);
      latitude := Map((r: CsvRow) => r.latitude, rows);
      longitude := Map((r: CsvRow) => r.longitude, rows);
      education := Map((r: CsvRow) => r.education, rows);
      yieldPerAcre, surplusScore := None, None;
      new;
      assert Records() == rows;
    }

    /** The two imputed columns, as the cleaning function reads them off the rows. */
    lemma ImputedColumnsOfRecords()
      requires Valid()
      ensures Map(AcreageOf, Records()) == acreage
      ensures Map(FertilizerOf, Records()) == fertilizer
    {
    }

    /** `df['Acreage'] = df['Acreage'].fillna(df['Acreage'].median())` */
    method FillAcreage()
      requires Valid()
      modifies this`acreage
      ensures Valid() && acreage == ImputeMedian(old(acreage))
    {
      acreage := ImputeMedian(acreage);
    }

    /** `df['Fertilizer amount'] = df['Fertilizer amount'].fillna(df['Fertilizer amount'].median())` */
    method FillFertilizer()
      requires Valid()
      modifies this`fertilizer
      ensures Valid() && fertilizer == ImputeMedian(old(fertilizer))
    {
      fertilizer := ImputeMedian(fertilizer);
    }

    /** `df['Yield_per_acre'] = df['Yield'] / df['Acreage']` and
        `df['Surplus_score'] = df['Yield'] - (df['Household size'] * 50)` */
    method AddDerivedColumns()
      requires Valid()
      modifies this`yieldPerAcre, this`surplusScore
      ensures Valid() && Scored()
      ensures yieldPerAcre == Some(YieldPerAcreColumn(cropYield, acreage))
      ensures surplusScore == Some(SurplusColumn(cropYield, householdSize))
    {
      yieldPerAcre := Some(YieldPerAcreColumn(cropYield, acreage));
      surplusScore := Some(SurplusColumn(cropYield, householdSize));
    }

    /** The rows of a frame whose imputed and derived columns are what cleaning `raw` computes. */
    lemma RowsAreCleaned(raw: seq<CsvRow>)
      requires Valid() && Scored() && |raw| == |farmer|
      requires forall i :: 0 <= i < |raw| ==>
        raw[i].farmer == farmer[i] && raw[i].laborers == laborers[i] &&
        raw[i].householdSize == householdSize[i] && raw[i].cropYield == cropYield[i] &&
        raw[i].latitude == latitude[i] && raw[i].longitude == longitude[i] &&
        raw[i].education == education[i]
      requires acreage == ImputeMedian(Map(AcreageOf, raw))
      requires fertilizer == ImputeMedian(Map(FertilizerOf, raw))
      requires yieldPerAcre == Some(YieldPerAcreColumn(cropYield, acreage))
      requires surplusScore == Some(SurplusColumn(cropYield, householdSize))
      ensures Rows() == CleanTable(raw)
    {
    }

    /** The cleaning block, one column assignment after the other: fill the missing acreages and
        fertilizer amounts with their column medians, then add `Yield_per_acre` (from the filled
        acreage) and `Surplus_score`. The other source columns keep their values. */
    method Clean()
      requires Valid()
      modifies this
      ensures Valid() && Scored()
      ensures Rows() == CleanTable(old(Records()))
      ensures farmer == old(farmer) && laborers == old(laborers) && householdSize == old(householdSize)
      ensures cropYield == old(cropYield) && latitude == old(latitude) && longitude == old(longitude)
      ensures education == old(education)
    {
      ghost var raw := Records();
      ImputedColumnsOfRecords();
      FillAcreage();
      FillFertilizer();
      AddDerivedColumns();
      RowsAreCleaned(raw);
    }
  }
}
