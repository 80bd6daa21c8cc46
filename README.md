# US inflation and wage dashboard: the data pipeline

This project models the data core of a Streamlit dashboard that shows US
inflation and wages. The core is `load_and_process_data` in
`dashboard_app.py`. It takes two monthly series, the consumer price index
(CPI) and the average hourly nominal wage, and builds one dense table:

1. it adds a year-over-year inflation column to the CPI series: a 12-row
   percent change, times 100, counted in CPI rows and taken before any join;
2. it inner-joins the CPI and wage series on their date index;
3. it picks a base CPI: the CPI of the first joined row that has both a CPI
   and a wage;
4. it adds a real-wage column, wage / CPI * base;
5. it drops every row with a missing cell.

When either series is absent, the result is an empty table. When no joined
row has both values, no real-wage column is added and the result is empty.
The dashboard then keeps the rows inside an inclusive date range. It shows
the last row as the "latest" values, and a change against the
second-to-last row when there are at least two rows.

Modelling choices:

- A date is an integer ordinal. Each input series is a sequence of
  `Frames.Obs` rows with strictly increasing dates.
- A cell is a `Nan.Num`, which is `Option<real>`; `None` stands for NaN.
  Column arithmetic propagates NaN (`Nan.Div`, `Nan.Mul`, `Nan.Sub`).
- A frame is a `Frames.Table`: its rows and a flag that says whether the
  real-wage column exists. The final dropna only looks at existing columns.
- An input file that is missing or fails to load is `None`.
  `Dashboard.LoadAndProcessData` follows the branches of the Python
  function and reassigns its locals the same way.
- The year-over-year lag counts CPI rows, not joined rows: the inflation
  column is computed before the join (`dashboard_app.py:35`).

Modules: `Nan` (cells and NaN arithmetic), `Seqs` (the order-keeping row
filter and facts about increasing date sequences), `Frames` (the five data
steps) and `Dashboard` (the orchestrating method, the date filter and the
metric cards).

## Model

| member | source | states |
|---|---|---|
| `Frames.WithInflation` | dashboard_app.py:35 | Adding the inflation column keeps every CPI row's date and CPI, and adds no rows. |
| `Frames.InflationAt` | dashboard_app.py:35 | At CPI row i the inflation is defined exactly when i >= 12 and CPI rows i and i-12 both hold a value. It then equals (CPI[i] / CPI[i-12] - 1) * 100, the formula documented at dashboard_app.py:195. |
| `Frames.WithInflationAscending` | dashboard_app.py:35 | Adding the inflation column keeps the CPI rows in ascending date order. |
| `Frames.Lookup` | dashboard_app.py:58 | Looking up a date in the wage series finds nothing exactly when no wage row has that date. Otherwise it returns the value of a wage row with that date. |
| `Frames.LookupAt` | dashboard_app.py:58 | With unique wage dates, looking up a wage row's date returns that row's value. |
| `Frames.Join` | dashboard_app.py:58 | The inner join has no more rows than the CPI frame. |
| `Frames.JoinRows` | dashboard_app.py:58 | A row is in the join exactly when some CPI row and some wage row share its date, and the row carries that CPI row's CPI and inflation and that wage row's wage. |
| `Frames.JoinFromLeft` | dashboard_app.py:58 | Every joined row's date is the date of some CPI row. |
| `Frames.JoinAscending` | dashboard_app.py:58 | The join keeps ascending date order. |
| `Frames.JoinLength` | dashboard_app.py:58 | The join has no more rows than either input series. |
| `Frames.BaseCpi` | dashboard_app.py:63-66 | After dropping the rows that miss a CPI or a wage, the base is the CPI of the first row left. There is no base exactly when no row holds both values; otherwise the base is the CPI of a row that holds both. `Frames.BaseIsFirstWithBoth` and `Frames.BaseOnInputs` pin down which row. |
| `Frames.FirstWithBoth` | dashboard_app.py:63-66 | Finds the first row that holds both a CPI and a wage, or reports that no row does. |
| `Frames.BaseIsFirstWithBoth` | dashboard_app.py:63-66 | The base CPI (the first CPI left after dropping rows that miss a CPI or a wage) is the CPI of the first row holding both values, which need not be row 0. There is no base exactly when no row holds both. |
| `Frames.BaseOnInputs` | dashboard_app.py:54-66 | On the two input series, a base exists exactly when some date has both a CPI and a wage. It is the CPI at the earliest such date. |
| `Frames.WithRealWage` | dashboard_app.py:67 | Adding the real-wage column keeps every row's date, CPI, inflation and wage, and adds no rows. |
| `Frames.RealWageAt` | dashboard_app.py:67 | The real wage is defined exactly where both CPI and wage are present. There it equals wage / CPI * base, the formula documented at dashboard_app.py:198. |
| `Frames.RealWageIsNominalIff` | dashboard_app.py:67 | For a non-zero wage, the real wage equals the nominal wage exactly when the row's CPI equals the base. |
| `Frames.RealWageAtBaseCpi` | dashboard_app.py:67 | At a row whose CPI is the base, the real wage is the nominal wage. |
| `Frames.BaseRowKeepsNominalWage` | dashboard_app.py:63-67 | At the row that supplied the base, the real wage equals the nominal wage. |
| `Frames.DropNa` | dashboard_app.py:78 | The final dropna leaves no missing cell in any existing column. A row survives exactly when it was in the frame and has no missing cell. |
| `Frames.DropNaAscending` | dashboard_app.py:78 | The final dropna keeps ascending date order. |
| `Frames.NoBaseLeavesNothing` | dashboard_app.py:63-78 | With no base, the frame without a real-wage column loses every row in the final dropna. |
| `Dashboard.OutputRowIsDelivered` | dashboard_app.py:35-78 | Every row of the result comes from a CPI row i >= 12 and a wage row of the same date, with CPI rows i and i-12 and the wage present. It carries the CPI, the 12-row inflation, the wage and wage / CPI * base. |
| `Dashboard.DeliveredRowIsOutput` | dashboard_app.py:35-78 | Every such pair of CPI and wage rows gives a row of the result. |
| `Dashboard.LoadAndProcessData` | dashboard_app.py:17-78 | The result is dense and in ascending date order. It is the empty frame when either input is absent. With both inputs, it has a real-wage column exactly when a base exists. Its rows are then exactly the delivered rows. Without a base, it is empty. |
| `Dashboard.DateFilter` | dashboard_app.py:95-109 | The filtered frame holds exactly the rows with lo <= date <= hi. It keeps the frame's columns unless it is empty. |
| `Dashboard.DateFilterKeepsShape` | dashboard_app.py:106 | The date filter keeps ascending order and keeps the frame dense. |
| `Dashboard.DefaultRangeKeepsAll` | dashboard_app.py:96-106 | The slider's initial range, from the earliest to the latest date, keeps every row. |
| `Dashboard.KeyIndicators` | dashboard_app.py:114-139 | Metric cards exist exactly when the filtered frame has a row. The real-wage card is shown exactly when the column exists. Each card has a delta exactly when there is more than one row. |
| `Dashboard.LatestIsNewest` | dashboard_app.py:115-116 | The cards' date is the date of the last row of the filtered frame, and no row is dated after it. A row with the latest date carries the wage, inflation and, when that card is shown, real-wage values of the cards. |
| `Dashboard.DeltaAgainstPredecessor` | dashboard_app.py:123-135 | In a dense, ordered frame, each delta is taken against the row just before the latest in date order: latest = previous + delta for inflation, wage and real wage. |
| `Dashboard.RealWageCardShown` | dashboard_app.py:132-137 | Because a non-empty result always has the real-wage column, the "Real Wage not calculated" branch is never taken when there are cards to show. |

## Left out

- Streamlit page setup, status messages, titles, charts and the methodology text (dashboard_app.py:9-13, 36-51, 68-76 messages, 85-93, 141-210). They are presentation only.
- Checking that the data files exist and parsing the CSV files (dashboard_app.py:21-23, 30-32, 43-45). Each input is an already-parsed series, or `None` when the file is missing or `read_csv` fails (dashboard_app.py:32, 45), which leaves the frame unassigned.
- Partly loaded frames. An exception after `read_csv`, at the column rename (dashboard_app.py:33, 46) or at `pct_change` (dashboard_app.py:35, for example on a CPI column read as text), is caught, but the frame stays bound without its 'CPI', 'Inflation Rate (%)' or 'Wage' column. The merge at dashboard_app.py:58 then runs on it. The column guard at dashboard_app.py:61 skips the real-wage step when a column is missing, and a CPI column read as text makes the division at dashboard_app.py:67 raise outside any try. The model's inputs are always well-formed series, so it does not model this path or that guard; only the emptiness test at dashboard_app.py:61 is modelled.
- The `st.cache_data` memoisation of the pipeline (dashboard_app.py:16). It is library caching, not pipeline logic.
- The slider widget itself (dashboard_app.py:99-105). Its chosen range is the pair of parameters `lo` and `hi`; its initial value is covered by `Dashboard.DefaultRangeKeepsAll`.
- Floating-point rounding and the two-decimal formatting of the cards (dashboard_app.py:122-135). The model computes over exact reals.
- Frames.InflationAt: pandas `pct_change` by default forward-fills missing values before taking the change, depending on the pandas version. The model makes the inflation missing whenever CPI[i] or CPI[i-12] is missing.
- Division by zero, which gives an infinity in pandas that survives `dropna`. Every present CPI value is required to be positive (`Frames.PositivePrices`).
- Duplicate dates in an input, for which a pandas merge would produce a cross product. Each input is required to have strictly increasing dates.
- data_fetcher.py, the download of the CPI series from FRED and its start-date filter. It is I/O, not part of this model.
