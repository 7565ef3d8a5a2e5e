/** The web service's start-up and its surplus listing (`app.py`): the table is loaded and cleaned
    once, and `/find_surplus` lists the farmers with a positive surplus score, largest first. */
module SurplusApi {
  import opened Wrappers
  import opened Rows
  import opened Farmers

  /** A Python `KeyError`: a dictionary key or a data frame column that is not there. */
  datatype ApiError = KeyError(key: string)

  /** One record of the `/find_surplus` answer: the columns
      Farmer, Yield, Household size, Surplus_score, Latitude, Longitude. */
  datatype SurplusEntry = SurplusEntry(
    farmer: string,
    cropYield: real,
    householdSize: int,
    surplusScore: real,
    latitude: real,
    longitude: real)

  /** The projection of a row on the listed columns. */
  function Entry(f: Farmer): SurplusEntry {
    SurplusEntry(f.farmer, f.cropYield, f.householdSize, f.surplusScore, f.latitude, f.longitude)
  }

  predicate EntryIsSurplus(e: SurplusEntry) {
    e.surplusScore > 0.0
  }

  /** The sort key of `sort_values('Surplus_score', ascending=False)`. */
  function ByScoreDescending(e: SurplusEntry): real {
    -e.surplusScore
  }

  /** `df[df['Surplus_score'] > 0].sort_values('Surplus_score', ascending=False)[columns]`.
      The projection on the listed columns is taken first here; it commutes with the mask and the
      sort, since both only look at `Surplus_score`, which is one of the listed columns. pandas
      sorts with an unstable quicksort, so nothing is promised about the order of equal scores. */
  function FindSurplus(rows: seq<Farmer>): (r: seq<SurplusEntry>)
    ensures forall i :: 0 <= i < |r| ==> r[i].surplusScore > 0.0
    ensures forall i, j :: 0 <= i < j < |r| ==> r[i].surplusScore >= r[j].surplusScore
  {
    var selected := Where(Map(Entry, rows), EntryIsSurplus);
    var r := SortBy(selected, ByScoreDescending);
    SortByElements(selected, ByScoreDescending);
    SortedByPairs(r, ByScoreDescending);
    assert forall i, j :: 0 <= i < j < |r| ==> ByScoreDescending(r[i]) <= ByScoreDescending(r[j]);
    r
  }

  /** The listing holds the projection of every row with a positive score, each as often as it
      occurs in the table, and nothing else; a row whose score is exactly 0 is not listed. */
  lemma FindSurplusExact(rows: seq<Farmer>)
    ensures forall e :: multiset(FindSurplus(rows))[e] ==
                       if e.surplusScore > 0.0 then multiset(Map(Entry, rows))[e] else 0
    ensures |FindSurplus(rows)| == |Where(rows, IsSurplus)|
  {
    var selected := Where(Map(Entry, rows), EntryIsSurplus);
    SortByPermutes(selected, ByScoreDescending);
    MapWhere(Entry, rows, EntryIsSurplus, IsSurplus);
    assert |multiset(FindSurplus(rows))| == |FindSurplus(rows)|;
  }

  /** `/find_surplus` against the data frame the service holds: the empty fallback frame has no
      `Surplus_score` column, and looking it up raises. */
  function FindSurplusRoute(df: DataFrame): (r: Result<seq<SurplusEntry>, ApiError>)
    reads df
    requires df.Valid()
    ensures r.Err? <==> df.surplusScore.None?
    ensures r.Err? ==> r.error == KeyError("Surplus_score")
    ensures r.Ok? ==> df.Scored() && r.value == FindSurplus(df.Rows())
  {
    if df.surplusScore.Some? then Ok(FindSurplus(df.Rows())) else Err(KeyError("Surplus_score"))
  }

  /** Whether training and saving the yield model succeed on a cleaned table. Fitting a random
      forest on a table with no rows always raises (there is no sample to fit); any other failure
      of the fit or of saving the model with `joblib.dump` is the flag `fitAndDumpSucceed`. */
  predicate TrainingSucceeds(rows: seq<Farmer>, fitAndDumpSucceed: bool) {
    rows != [] && fitAndDumpSucceed
  }

  /** The start-up block: read the CSV file, clean it, then train and save the yield model. Any
      exception on the way (the file cannot be read, the model cannot be fitted or saved) leaves
      the service with the empty fallback frame. Reading is `csv` (None when it fails); the model
      itself is not part of this model. */
  method Initialise(csv: Option<seq<CsvRow>>, fitAndDumpSucceed: bool) returns (df: DataFrame)
    ensures fresh(df) && df.Valid()
    ensures df.Scored() <==> csv.Some? && csv.value != [] && fitAndDumpSucceed
    ensures df.Scored() ==> df.Rows() == CleanTable(csv.value)
    ensures !df.Scored() ==> df.surplusScore.None? && df.Records() == []
  {
    if csv.None? {
      df := new DataFrame.Empty();
      return;
    }
    df := new DataFrame.ReadCsv(csv.value);
    df.Clean();
    if !TrainingSucceeds(df.Rows(), fitAndDumpSucceed) {
      df := new DataFrame.Empty();
    }
  }

  /** Two example rows: a yield of 500 kg for a household of 4 leaves 300 kg and is listed;
      a yield of 150 kg for a household of 4 leaves -50 kg and is not. */
  lemma FindSurplusScenario(a: Farmer, b: Farmer)
    requires WellScored(a) && a.cropYield == 500.0 && a.householdSize == 4
    requires WellScored(b) && b.cropYield == 150.0 && b.householdSize == 4
    ensures a.surplusScore == 300.0 && b.surplusScore == -50.0
    ensures FindSurplus([a, b]) == [Entry(a)]
  {
    assert Map(Entry, [a, b]) == [Entry(a), Entry(b)] by {
      assert [a, b][1..] == [b];
    }
    assert Where([Entry(a), Entry(b)], EntryIsSurplus) == [Entry(a)] by {
      assert [Entry(a), Entry(b)][1..] == [Entry(b)];
    }
  }
}
