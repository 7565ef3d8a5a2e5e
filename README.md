# Taita Taveta food donation network: surplus scoring, filtering and route ordering

This project models, in Dafny, the algorithmic core of a small Flask service (`app.py`) and
Streamlit dashboard (`streamlit_app.py`). They find smallholder corn farmers with a crop
surplus and help send that surplus to people who need it. The core is a short pipeline over a
table of farmer records:

- **Load-time cleaning.** Both programs run it. Missing `Acreage` and `Fertilizer amount` values
  are filled with the median of the values that are present. Then two columns are derived:
  `Yield_per_acre = Yield / Acreage` and `Surplus_score = Yield - Household size * 50`, where
  50 kg is the yearly need of one person.
- **Surplus listing** (`/find_surplus`). It keeps the farmers whose score is strictly positive
  and lists them by score, largest first.
- **Dashboard.** It shows the surplus count and filters the table by a minimum score (inclusive)
  and, optionally, by education level. It shows the first filtered row of a selected farmer, and
  turns a predicted yield into a potential surplus.
- **Route ordering** (`/optimize_routes`). It sorts the posted locations in place, stably, by
  distance from the centre (-3.45, 38.35). A location without `lat` or `lon` makes the request
  fail.

Modules:

- `Wrappers`: Option and Result.
- `Rows`: the pandas operations the source uses. `Where` is selection by a boolean mask, `Map`
  is projection, and `SortBy` is sorting by a key.
- `Imputation`: the median of the present values, and `fillna` with it.
- `Farmers`: the record types, the score, and a `DataFrame` class that holds one sequence per
  column and is cleaned in place, one column assignment at a time. `CleanTable` specifies the
  cleaned table row by row.
- `SurplusApi`: the service's start-up and `/find_surplus`.
- `Routes`: `/optimize_routes`. It uses an in-place insertion sort on an array. A ghost
  permutation proves that the sort is stable.
- `Dashboard`: the Streamlit computations.

Parameters stand for everything outside the core:

- The CSV file's rows are the input `csv`. A failed read is `None`.
- Whether the random-forest model could be fitted is a boolean.
- A yield prediction is a number passed in.
- The distance function (geopy's geodesic or the haversine fallback) is a function parameter
  `dist`.

Points of the code's behaviour that the model keeps:

- `/find_surplus` promises no order for equal scores, because `sort_values` uses pandas'
  unstable default quicksort (app.py:61).
- A start-up failure leaves `pd.DataFrame()` (app.py:45), a frame with no columns, and
  `/find_surplus` then raises `KeyError('Surplus_score')` (app.py:60). The model returns that
  error. A CSV file with a header and no rows also ends there, because fitting the random forest
  on no samples raises (app.py:41).
- A zero or missing acreage is not an error: pandas divides and gets infinity or NaN
  (app.py:34). The model records such a quotient as `NonFinite`.
- `/optimize_routes` sorts the posted list in place (app.py:73-75), and the model sorts an
  array in place.

## Model

| member | source | states |
|---|---|---|
| `Rows.Where` | streamlit_app.py:103-105 | `df[mask]` keeps every row that satisfies the mask, as often as it occurs, and no other row; the rows keep their order (the result is a subsequence of the input) |
| `Rows.WhereFirst` | streamlit_app.py:129 | `df[mask].iloc[0]` exists exactly when some row satisfies the mask, and it is the first such row in table order |
| `Rows.WhereCountsPositions` | streamlit_app.py:56 | `len(df[mask])` equals the number of row positions that satisfy the mask |
| `Rows.WhereConcat` | streamlit_app.py:103 | selection by a mask distributes over concatenation of tables |
| `Rows.MapWhere` | app.py:60-62 | projecting on columns commutes with a mask that only reads a projected column |
| `Rows.SubsequenceTransitive` | streamlit_app.py:103-105 | applying a second mask to a masked table still gives a subsequence of the original table |
| `Rows.SortBy` | app.py:61 | sorting by a key gives a list ordered non-decreasingly by that key, of the same length |
| `Rows.SortByPermutes` | app.py:61 | sorting by a key neither loses nor adds rows: the result is a permutation of the input |
| `Rows.SortByElements` | app.py:61 | every element of a sorted list comes from the input |
| `Imputation.PresentValues` | app.py:30 | the values the median looks at are among the present (non-NaN) entries, and every present entry is among them |
| `Imputation.PresentValuesCount` | app.py:30 | each value occurs among the values the median looks at exactly as often as it is present in the column |
| `Imputation.MedianSplitsHalves` | app.py:30-31 | the median has at least half of the present values at or below it and at least half at or above it; for an odd count it is one of the values |
| `Imputation.ImputeMedian` | app.py:30-31 | `fillna(median())` keeps every present entry and fills every missing one with the median of the present entries; nothing stays missing unless the whole column was missing, and then the column is unchanged |
| `Farmers.YieldPerAcre` | app.py:34 | `Yield / Acreage` is finite exactly when the acreage is present and non-zero, and then multiplied back by the acreage it gives the yield |
| `Farmers.CleanTableFaithful` | app.py:30-35 | cleaning keeps the row count and every source column except the two imputed ones; a present acreage or fertilizer amount is kept, a missing one becomes its column's median; every row's `Surplus_score` is `Yield - Household size * 50` and its `Yield_per_acre` is computed from the filled acreage |
| `Farmers.DataFrame.ReadCsv` | app.py:28 | the frame read from the CSV rows holds those rows, and neither `Yield_per_acre` nor `Surplus_score` exists yet |
| `Farmers.DataFrame.Empty` | app.py:45 | the fallback frame has no rows, no `Yield_per_acre` column and no `Surplus_score` column |
| `Farmers.DataFrame.FillAcreage` | app.py:30 | the `Acreage` column is replaced by its median-imputed version; no other column changes |
| `Farmers.DataFrame.FillFertilizer` | app.py:31 | the `Fertilizer amount` column is replaced by its median-imputed version; no other column changes |
| `Farmers.DataFrame.AddDerivedColumns` | app.py:34-35 | adds `Yield_per_acre` from the current (filled) acreage and `Surplus_score` from yield and household size |
| `Farmers.DataFrame.RowsAreCleaned` | app.py:30-35 | a frame whose columns hold the imputed and derived values reads back as the cleaned table |
| `Farmers.DataFrame.Clean` | app.py:30-35 | after the cleaning block the frame's rows are exactly the cleaned table of its previous contents, and the other source columns are unchanged |
| `SurplusApi.Initialise` | app.py:27-45 | start-up yields the cleaned table exactly when the CSV can be read, has at least one row (fitting on no samples raises) and fitting and saving the model succeed; otherwise it leaves the empty fallback frame, with no `Surplus_score` column |
| `SurplusApi.FindSurplus` | app.py:60-62 | every listed farmer has a score strictly above 0, and the list is ordered non-increasingly by score |
| `SurplusApi.FindSurplusExact` | app.py:60-62 | the listing holds each row with a positive score exactly as often as it occurs in the table, and nothing else; its length is the number of rows with a positive score |
| `SurplusApi.FindSurplusRoute` | app.py:57-64 | `/find_surplus` fails with `KeyError('Surplus_score')` exactly when the frame has no `Surplus_score` column, and otherwise returns the listing of the frame's rows |
| `SurplusApi.FindSurplusScenario` | app.py:35-61 | a yield of 500 kg for 4 people scores 300 and is listed; 150 kg for 4 people scores -50 and is not |
| `Routes.StableSortBy` | app.py:73-75 | `list.sort(key=...)` leaves a permutation of the list, ordered non-decreasingly by the key, with equal keys in their original order |
| `Routes.OptimizeRoutes` | app.py:67-79 | the route is the posted list stably sorted by distance from (-3.45, 38.35); an empty list gives an empty route; a location without `lat` or `lon` gives the `KeyError` of the first such location, never a partial route, and the list is left as posted |
| `Dashboard.LoadData` | streamlit_app.py:44-50 | `load_data` leaves a frame whose rows are the cleaned table of the CSV rows |
| `Dashboard.SurplusCount` | streamlit_app.py:56 | the shown count is at most the number of rows |
| `Dashboard.SurplusCountCountsRows` | streamlit_app.py:56 | the shown count is the number of rows with a score strictly above 0, and it equals the length of the service's surplus listing |
| `Dashboard.FilterFarmers` | streamlit_app.py:103-105 | `filtered_df` keeps exactly the rows with score at least `min_surplus` and, if some education levels are selected, an education among them, each as often as it occurs; the kept rows are in table order |
| `Dashboard.SelectFarmer` | streamlit_app.py:128-129 | the selected farmer's record exists exactly when some filtered row has that name, and it is the first such row |
| `Dashboard.SelectedFarmerCard` | streamlit_app.py:128-132 | the selected farmer's card shows a row of the cleaned table with the chosen name that passes the filters; its household need `Household size * 50` and its available surplus add up to its yield, and the surplus is positive exactly when the yield exceeds the need |
| `Dashboard.PotentialSurplus` | streamlit_app.py:161 | the potential surplus of a predicted yield is positive exactly when the prediction exceeds the household's need, and it follows the same rule as `Surplus_score` |

## Left out

- Flask routing, JSON parsing and serialisation, and the catch-all `except` that turns an
  exception into an HTTP 500 answer. An exception is a `Result` error.
- The request body itself. A request without a `locations` key, which would also raise
  `KeyError`, is not modelled; `OptimizeRoutes` starts from the posted list.
- `/predict_yield` and the random-forest model (training, `joblib` dump and load, prediction).
  These are a foreign library. Fitting always fails on a table with no rows; any other failure of
  fitting or of `joblib.dump` is the parameter `fitAndDumpSucceed` of `Initialise`. A prediction
  is a number passed to `PotentialSurplus`.
- CSV reading. `corn_data.csv` is given as rows, and a failed read as `None`. In the dashboard a
  failed read stops the page; this is not modelled.
- NaN in columns other than `Acreage` and `Fertilizer amount`. The other numeric columns are
  taken to be present.
- The distance computation. geopy's geodesic distance and the haversine fallback are
  floating-point trigonometry. Both are one parameter `dist`, and nothing is proved about
  symmetry or zero self-distance. geopy's `ValueError` for out-of-range latitudes is not
  modelled.
- Floating point in general. Scores, medians and quotients are exact reals. Rounding is not
  modelled, and neither are infinity and NaN, apart from the `NonFinite` quotient.
- `SurplusApi.FindSurplus`: does not state the order of rows with equal scores, because pandas'
  default quicksort is not stable.
- The empty fallback frame is a frame with no rows and no derived columns; the frame's other,
  also missing, columns are not looked up by anything modelled.
- The dashboard's widgets, plotting (the Plotly map), `check_dependencies`, the donation form,
  and the HTTP call from the dashboard to the service.
