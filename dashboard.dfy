/** The dashboard (`streamlit_app.py`): it loads and cleans the same table as the web service,
    counts the surplus farmers, filters the table by a minimum surplus and by education level,
    shows one selected farmer, and turns a predicted yield into a potential surplus. */
module Dashboard {
  import opened Wrappers
  import opened Rows
  import opened Farmers
  import opened SurplusApi

  /** `load_data`: read the CSV rows into a frame and clean it in place, column by column. */
  method LoadData(csv: seq<CsvRow>) returns (df: DataFrame)
    ensures fresh(df) && df.Valid() && df.Scored()
    ensures df.Rows() == CleanTable(csv)
  {
    df := new DataFrame.ReadCsv(csv);
    df.Clean();
  }

  /** `len(df[df['Surplus_score'] > 0])`, the number shown above the map. */
  function SurplusCount(rows: seq<Farmer>): (n: nat)
    ensures n <= |rows|
  {
    |Where(rows, IsSurplus)|
  }

  /** The count is the number of rows whose score is strictly positive, and it is the length of
      the web service's surplus listing for the same table. */
  lemma SurplusCountCountsRows(rows: seq<Farmer>)
    ensures SurplusCount(rows) == |Positions(rows, IsSurplus)|
    ensures SurplusCount(rows) == |FindSurplus(rows)|
  {
    WhereCountsPositions(rows, IsSurplus);
    FindSurplusExact(rows);
  }

  /** `df['Surplus_score'] >= min_surplus`: the threshold is inclusive. */
  function AtLeastSurplus(minSurplus: int): Farmer -> bool {
    (f: Farmer) => f.surplusScore >= minSurplus as real
  }

  /** `df['Education'].isin(education_filter)` */
  function EducationIn(selection: seq<string>): Farmer -> bool {
    (f: Farmer) => f.education in selection
  }

  /** Whether the sidebar filters let a row through: a score of at least `minSurplus`, and an
      education level among the selected ones unless none is selected. */
  predicate Shown(f: Farmer, minSurplus: int, selection: seq<string>) {
    f.surplusScore >= minSurplus as real && (selection == [] || f.education in selection)
  }

  /** `filtered_df`: the rows the sidebar filters let through, in table order. */
  function FilterFarmers(rows: seq<Farmer>, minSurplus: int, selection: seq<string>): (r: seq<Farmer>)
    ensures IsSubsequence(r, rows)
    ensures forall i :: 0 <= i < |r| ==> Shown(r[i], minSurplus, selection)
    ensures forall f :: multiset(r)[f] == if Shown(f, minSurplus, selection) then multiset(rows)[f] else 0
  {
    var byScore := Where(rows, AtLeastSurplus(minSurplus));
    if selection != [] then
      var r := Where(byScore, EducationIn(selection));
      SubsequenceTransitive(r, byScore, rows);
      r
    else
      byScore
  }

  /** `filtered_df[filtered_df['Farmer'] == selected_farmer].iloc[0]`; `iloc[0]` on no row raises,
      which is None here. */
  function SelectFarmer(rows: seq<Farmer>, name: string): (r: Option<Farmer>)
    ensures r.Some? <==> exists i :: 0 <= i < |rows| && rows[i].farmer == name
    ensures r.Some? ==> exists i :: 0 <= i < |rows| && rows[i] == r.value && r.value.farmer == name &&
                                    forall j :: 0 <= j < i ==> rows[j].farmer != name
  {
    var named := Where(rows, (f: Farmer) => f.farmer == name);
    WhereFirst(rows, (f: Farmer) => f.farmer == name);
    if named == [] then None else Some(named[0])
  }

  /** The selected farmer's card (yield, household need `Household size * 50`, available surplus)
      shows a row of the cleaned table that the filters let through; its surplus is the yield
      less the household need, so need and surplus add up to the yield, and the surplus is
      positive exactly when the yield exceeds the need. */
  lemma {:induction false} SelectedFarmerCard(raw: seq<CsvRow>, minSurplus: int, selection: seq<string>, name: string)
    requires SelectFarmer(FilterFarmers(CleanTable(raw), minSurplus, selection), name).Some?
    ensures var f := SelectFarmer(FilterFarmers(CleanTable(raw), minSurplus, selection), name).value;
      f in CleanTable(raw) && f.farmer == name && Shown(f, minSurplus, selection) && WellScored(f) &&
      HouseholdNeed(f.householdSize) as real + f.surplusScore == f.cropYield &&
      (f.surplusScore > 0.0 <==> f.cropYield > HouseholdNeed(f.householdSize) as real)
  {
    var table := CleanTable(raw);
    var shown := FilterFarmers(table, minSurplus, selection);
    var f := SelectFarmer(shown, name).value;
    assert f in shown;
    assert multiset(shown)[f] > 0;
    assert multiset(table)[f] > 0;
    assert f in table;
    CleanTableFaithful(raw);
  }

  /** `prediction - (household_size * 50)`, the potential surplus shown for a predicted yield: it is
      positive exactly when the prediction exceeds the household's need, and it is the same rule
      that gives the table its surplus scores. */
  function PotentialSurplus(prediction: real, householdSize: int): (surplus: real)
    ensures surplus > 0.0 <==> prediction > HouseholdNeed(householdSize) as real
    ensures surplus == SurplusScore(prediction, householdSize)
  {
    prediction - (householdSize * NEED_PER_PERSON) as real
  }
}
