# Cross-market dashboard: synchronizer, date filter and query catalog

This project models the data logic of a Streamlit dashboard over daily crypto,
oil and stock-index prices (`streamlit_app.py`), and proves its properties in
Dafny. The dashboard joins the series on date, ordered by date ascending. It
then cleans the joined frame with
`df.replace(0, pd.NA).ffill().infer_objects(copy=False).fillna(0)` and keeps
the rows inside the date range the sidebar picker returned. Its SQL runner page
looks a query up in a fixed two-level catalog, `query_map[cat][selected_q]`.
It runs the query and cleans the result table with the same pipeline.

The model has five modules:

- `Wrappers` (`wrappers.dfy`): `Option` (a NULL/NA cell is `None`) and `Result`.
- `Synchronizer` (`synchronizer.dfy`): the cleaning pipeline, stage by stage.
  - `MaskZeros` is `replace(0, pd.NA)`.
  - `ForwardFill` is `ffill()`, a forward scan that carries the last value seen.
  - `FillMissing` is `fillna(0)`.
  - `SyncColumn` chains the three stages on one column, and `SyncTable` applies
    it to every column of a table.
  - The reference definition is `LastObservedIndex`: the most recent row, at
    or before a given row, whose cell is neither NULL nor zero. `Filled` is
    the value that row should hold.
  - Cell values have a generic type `V` with a distinguished `zero`. So a
    result table with text columns is modelled by a `V` in which no text
    equals the numeric zero.
- `DateFilter` (`date_filter.dfy`): the frame and its date filter.
  - A `Frame` has a date column plus value columns. Dates are day numbers.
  - `RowsInRange` gives the ascending indices of the rows with
    `start <= date <= end`.
  - `Between` keeps exactly those rows. `ApplyDateFilter` calls it only when
    the picker returned exactly two dates.
- `QueryCatalog` (`query_catalog.dfy`): the catalog and its lookup.
  - The five topics of the selector, the 30 query texts as literals, and
    `QueryMap`.
  - `Resolve` fails with `UnknownCategory` or `UnknownQuery` where Python
    raises `KeyError`.
- `Dashboard` (`dashboard.dfy`): the two page scripts, as methods whose local
  frame is rebound step by step, as in the source.
  - `LoadMarketOverview` skips an empty frame, then fills, then filters.
  - `RunAnalysis` resolves the query, reads from the store, then fills.

The database is a parameter. The overview page receives the frame the join
returned. The SQL runner receives a function from SQL text to the table the
store returns for it.

Facts about the code that the model keeps:

- Each topic holds exactly six queries.
- An observed zero is always treated as missing. So an output cell is zero
  exactly in a leading gap: that cell and every cell above it were NULL or zero.
- A missing key raises `KeyError` in the code. The model returns a named error.

## Model

| member | source | states |
|---|---|---|
| `Synchronizer.MaskZeros` | streamlit_app.py:150 | `replace(0, pd.NA)` keeps the column's length |
| `Synchronizer.ForwardFill` | streamlit_app.py:150 | `ffill()` keeps the column's length |
| `Synchronizer.FillMissing` | streamlit_app.py:150 | `fillna(0)` keeps the column's length |
| `Synchronizer.SyncColumn` | streamlit_app.py:150 | the whole pipeline on one column keeps its length: no row is added or dropped |
| `Synchronizer.SyncTable` | streamlit_app.py:236 | the pipeline on a table keeps the number of columns, their order and each column's row count |
| `Synchronizer.LastObservedIndex` | streamlit_app.py:150 | the returned row is at or before row `i`; if it is a row, that cell is neither NULL nor zero; every cell after it up to `i` is a gap; -1 means there is no observation yet |
| `Synchronizer.ForwardFillAt` | streamlit_app.py:150 | the forward scan leaves at each row the last present cell up to that row, or the initial carry |
| `Synchronizer.MaskedLastPresent` | streamlit_app.py:150 | after masking zeros, the last present cell up to a row is exactly the most recent observation of the original column |
| `Synchronizer.SyncColumnAt` | streamlit_app.py:150 | every output cell equals the most recent earlier-or-same observation of its column, or zero when there is none |
| `Synchronizer.FillDirection` | streamlit_app.py:150 | an observed cell is kept; a gap repeats the output cell above it; a gap in the first row becomes zero |
| `Synchronizer.LeadingGap` | streamlit_app.py:150 | an output cell is zero if and only if it and every earlier cell of its column were NULL or zero |
| `Synchronizer.FilledFromObservation` | streamlit_app.py:150 | a non-zero output cell equals some earlier-or-same input cell, with only gaps in between |
| `Synchronizer.SyncColumnIdempotent` | streamlit_app.py:150 | filling a filled column returns it unchanged |
| `Synchronizer.SyncDenseColumn` | streamlit_app.py:150 | a column with no NULL or zero cell, such as the date column, is returned unchanged |
| `Synchronizer.SyncTableAt` | streamlit_app.py:236 | every cell of a filled table is the reference value of its own input column at that row |
| `Synchronizer.ColumnIndependence` | streamlit_app.py:236 | replacing one input column changes no other output column |
| `Synchronizer.SyncEmptyTable` | streamlit_app.py:236 | a table with no rows comes back with the same number of columns and no rows |
| `Synchronizer.SyncTableIdempotent` | streamlit_app.py:236 | filling a filled table returns it unchanged |
| `Synchronizer.ExampleFillDirection` | streamlit_app.py:150 | `[5, 0, 0, 8]` becomes `[5, 5, 5, 8]` |
| `Synchronizer.ExampleLeadingGap` | streamlit_app.py:150 | `[0, 0, 7]` stays `[0, 0, 7]` |
| `Synchronizer.ExampleNulls` | streamlit_app.py:150 | NULL and zero are both gaps: `[NULL, 3, NULL, 0]` becomes `[0, 3, 3, 3]` |
| `DateFilter.RowsInRange` | streamlit_app.py:155 | the selected row indices are valid and strictly ascending, and a row is selected if and only if `start <= date <= end` |
| `DateFilter.Between` | streamlit_app.py:155 | the result is a well-formed frame with the same columns; output row `k` is the `k`-th selected input row, in every column and in the date column |
| `DateFilter.ApplyDateFilter` | streamlit_app.py:153-155 | filtering keeps the frame well formed and keeps its columns |
| `DateFilter.PickRowsInRange` | streamlit_app.py:155 | the dates of the selected rows are those of a plain recursive "keep the dates in range" filter |
| `DateFilter.BetweenDates` | streamlit_app.py:155 | the filtered dates are exactly the input dates in range, in input order |
| `DateFilter.BetweenInclusive` | streamlit_app.py:155 | every kept date is in the range, and every input date in the range, endpoints included, is kept |
| `DateFilter.NoRowsInEmptyRange` | streamlit_app.py:155 | a range with `start > end` selects no row |
| `DateFilter.BetweenReversedRange` | streamlit_app.py:155 | a range with `start > end` leaves a frame with no rows |
| `DateFilter.BetweenKeepsOrder` | streamlit_app.py:155 | non-decreasing dates (a date may repeat) stay non-decreasing after filtering |
| `DateFilter.NoRangeNoFilter` | streamlit_app.py:153 | a picker result without exactly two dates leaves the frame unchanged |
| `DateFilter.ExampleTenDays` | streamlit_app.py:153-155 | days 1..10 with range [3, 5] keep exactly three rows, days 3, 4 and 5, with their cells |
| `QueryCatalog.Topics` | streamlit_app.py:184-186 | the five topics the first selector offers, in display order |
| `QueryCatalog.QueryMap` | streamlit_app.py:188-229 | the 30 query labels and SQL texts under their five topics, as written |
| `QueryCatalog.Resolve` | streamlit_app.py:234 | the lookup succeeds if and only if both keys are present, and then returns the catalog's text; otherwise it says which key is missing |
| `QueryCatalog.TopicsMatchCatalog` | streamlit_app.py:184-229 | the topic selector offers five distinct topics, exactly the catalog's keys |
| `QueryCatalog.CatalogShape` | streamlit_app.py:188-229 | the catalog has five topics, each with six queries, and no query text is empty |
| `QueryCatalog.MenuSelectionsResolve` | streamlit_app.py:231-234 | every topic and label the two selectors can offer resolves to a non-empty text |
| `QueryCatalog.ResolvedTextNonEmpty` | streamlit_app.py:234 | a successful lookup never returns the empty string |
| `QueryCatalog.ExampleOilPeak` | streamlit_app.py:206 | ("3. Oil Analysis", "Q13: Highest Oil Peak") resolves to `SELECT MAX(price_usd) AS Peak_Oil_INR FROM oil_prices` |
| `QueryCatalog.ExampleBogusCategory` | streamlit_app.py:234 | an unknown topic fails with `UnknownCategory` |
| `QueryCatalog.ExampleLabelOfOtherTopic` | streamlit_app.py:234 | a label of another topic fails with `UnknownQuery` |
| `Dashboard.SyncFrame` | streamlit_app.py:148-150 | the overview fill keeps the date column and the number of value columns, and keeps the frame well formed |
| `Dashboard.LoadMarketOverview` | streamlit_app.py:143-155 | nothing is shown if and only if the joined frame is empty; otherwise the shown frame is the loaded frame filled, then date-filtered |
| `Dashboard.RunAnalysis` | streamlit_app.py:233-236 | the run fails exactly when the lookup fails, with the lookup's error; on success it returns the store's table for the catalog text, filled |
| `Dashboard.FilterAfterFill` | streamlit_app.py:150-155 | after fill and filter, the dates are those in range, and each shown cell is the most recent observation up to its source row, which may lie before `start` |
| `Dashboard.SyncFrameIdempotent` | streamlit_app.py:150 | filling the filled overview frame changes nothing |
| `Dashboard.ExampleFillBeforeFilter` | streamlit_app.py:150-155 | with 5 on day 1 and gaps on days 2 and 3, range [2, 3] shows 5 on both days; filtering first would show zeros |

## Left out

- The page layout is not modelled: page setup, CSS, sidebar, navigation, selectors, button, metric cards, warnings and tables. It is presentation only.
- The run button's gate at line 232 is not modelled. `RunAnalysis` models how a press is handled.
- Database access is not modelled: connection settings from the environment, opening and closing connections, and executing SQL. These are I/O. The store is a parameter, and the SQL text is opaque.
- A missing key at line 234 would raise after the connection at line 233 was opened, and leave it open. The model has no connections, so it does not capture this.
- The single-asset page (lines 241-251) is not modelled. It only reads a series and charts it, with no transformation. Its query is SQL text interpolated from a fixed list.
- The correlation page (lines 254-266) is not modelled. It reads a table and calls `df.corr()`, which is floating-point numerics, then plots it.
- The averages in the metric cards (lines 160-163) are not modelled: floating-point means and number formatting.
- Date parsing with `pd.to_datetime` (lines 148, 154) is not modelled. Dates are day numbers already parsed.
- `infer_objects(copy=False)` changes only column dtypes, not values, so it is omitted.
- `Dashboard.SyncFrame`: pandas also forward-fills the `Entry_Date` column. The model leaves that column untouched. This is the same result, because a join key is never NULL and a datetime never equals 0; `Synchronizer.SyncDenseColumn` states that the fill is the identity on such a column.
- The ordering of the joined rows by date (`ORDER BY c.date ASC`, line 141) is done by the store. The model takes the rows in the order given. `DateFilter.BetweenKeepsOrder` keeps ascending (non-decreasing) order when it holds. The overview join has no coin filter on `crypto_prices`, so a date can occur once per coin; the rows of one date then have no set order, and a gap is filled from the row above it, which may belong to another coin on the same date.
- The docstrings on lines 1-68 describe no executable logic.
