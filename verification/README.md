# WELPy data assembly, modelled in Dafny

WELPy reads telemetry from a residential geothermal heat-pump controller
(a "WEL"). This project models two pieces of its data handling in Dafny and
proves properties about them.

* `WELData` (WELServer.py) loads one exported spreadsheet. It parses the
  `Date` column and adds a combined `dateTime` column. The first and last
  `dateTime` values become the extent (`beginTime`, `endTime`). It then adds
  the derived channels `power_tot = HP_W + TAH_W`,
  `T_diff = inside_T - outside_T` and the daily rolling mean `eff_rolling`.
  `vars()` lists the columns. `timeCondition` turns a requested range into
  concrete bounds. `plot` keeps the rows whose timestamp lies strictly
  between those bounds.
* `LiveWELData` (WELPyLive.py) builds one record per poll of the controller.
  It folds the polled `{name, value}` items into a record, replaces `date`
  and `time` with a combined `DateTime`, and appends the record to the
  table.

The files:

* `results.dfy` (`Results`): `Option`, `Result`, and an `Error` type with one
  constructor per Python exception the code can raise: AttributeError,
  KeyError, TypeError, ValueError, and the two IndexErrors.
* `clock.dfy` (`Clock`): the timeline. `Instant`, `Day` and `Tod` are
  integers, and only the order `<` on `Instant` is used. `strptime`,
  `fromisoformat` and `datetime.combine` are fields of a `Calendar` that the
  caller supplies, so the model assumes nothing about them. A parser returns
  `None` where the library would raise ValueError.
* `frames.dfy` (`Frames`): the part of a pandas DataFrame the code relies on.
  A frame has named columns in column order, all of one height, and each
  column has a kind (text, date, time of day, timestamp or float). Column
  assignment replaces a column in place or adds it after the last one. Row
  selection by the mask `(ts > lo) & (ts < hi)` is `Keep`. It is checked
  against `Picked`, an independent list of the selected row numbers.
* `welserver.dfy` (`WELServer`): the constructor (`StampRows`, `Derive`,
  `Load`), `Vars`, `TimeCondition` and the data half of `Plot`.
* `welpylive.dfy` (`WELPyLive`): `Fold`, `Assemble`, `Init`, `AddData`.

Behaviour of the code that the model keeps as it is:

* `plot` keeps the rows with `start < dateTime < end`, strict on both
  sides. So with no range requested, the first and last samples are never
  plotted.
* With no range requested, `timeCondition` returns `[beginTime, endTime]`,
  the dataset's whole extent.
* `timeCondition` neither reorders nor rejects an inverted range.
* A range element that is already a datetime object is passed to
  `fromisoformat`, which raises TypeError. The model returns `WrongType`.
* `fromisoformat` gives a timezone-aware datetime for text with a UTC offset.
  Comparing the offset-free `dateTime` column with it raises TypeError in
  pandas, so `Plot` returns `WrongType("dateTime")` for such a bound.

## Model

| member | source | states |
|---|---|---|
| `Frames.Picked` | WELServer.py:62-64 | The mask selects exactly the rows whose timestamp lies strictly between the bounds, and lists them in ascending row order. |
| `Frames.Keep` | WELServer.py:62-64 | `xs[(ts > lo) & (ts < hi)]` as a filter over the rows. Its contract bounds the result by the input length; `KeepIsGather` states its exact contents. |
| `Frames.KeepIsGather` | WELServer.py:62-64 | Masking a column keeps exactly the cells of the selected rows, in row order, and nothing else. |
| `Frames.KeepColumn` | WELServer.py:64-65 | A masked column keeps its kind and has one cell per selected row: the column's cell at that row. |
| `Frames.Assign` | WELServer.py:23-30 | Assigning a column to an existing name keeps the column order. A new name is added after the last column. No other column changes and all columns keep one height. |
| `WELServer.ParseAll` | WELServer.py:21-22 | `Date` parsing succeeds exactly when every row's text parses. Each row then holds its own parsed date. Otherwise the ValueError names the first text that fails. |
| `WELServer.StampRows` | WELServer.py:21-24 | Succeeds exactly when `Date` exists and parses, and `Time` exists and holds times of day. A missing `Date` raises AttributeError. On success, `Date` is replaced by the parsed dates and `dateTime[i] = combine(Date[i], Time[i])`. Every other column is unchanged. |
| `WELServer.Derive` | WELServer.py:29-32 | Succeeds exactly when `HP_W`, `TAH_W`, `inside_T`, `outside_T` and `eff` exist as float columns, and raises the first error the statements would raise. On success it adds or replaces `power_tot`, `T_diff` and `eff_rolling` and changes nothing else. |
| `WELServer.Load` | WELServer.py:17-32 | The constructor succeeds exactly when the sheet is non-empty, has the seven channels it reads, and those parse. An empty sheet raises IndexError and a missing `Date` raises AttributeError. The result has the constructor's columns in the constructor's order. `beginTime` and `endTime` are the first and last combined timestamps. |
| `WELServer.PowerTotal` | WELServer.py:29 | For every row, `power_tot[i] = HP_W[i] + TAH_W[i]`, with NaN if either input is NaN. `HP_W` and `TAH_W` keep their values. |
| `WELServer.TemperatureDifference` | WELServer.py:30 | For every row, `T_diff[i] = inside_T[i] - outside_T[i]`, with NaN if either input is NaN. Both temperatures keep their values. |
| `WELServer.SourceColumnsKept` | WELServer.py:21-32 | The loaded frame has the sheet's columns plus the four added ones. Every sheet column except `Date` and the added names is unchanged. |
| `WELServer.VarsAfterLoad` | WELServer.py:23-36 | `vars()` of a loaded export is the column order the constructor's assignments produce from the sheet's column order. |
| `WELServer.VarsAfterLoadFresh` | WELServer.py:23-36 | If the sheet has none of `dateTime`, `power_tot`, `T_diff` and `eff_rolling`, `vars()` is the sheet's columns followed by those four, in that order. |
| `WELServer.AppendAllOrder` | WELServer.py:23-36 | After the constructor's assignments, the column order starts with the sheet's columns in their order. It holds exactly those columns and the assigned ones. |
| `WELServer.AppendAllFresh` | WELServer.py:23-36 | Assigning names that are all new and distinct appends them after the existing columns, in the order assigned. |
| `WELServer.Vars` | WELServer.py:35-36 | `vars()` lists every column exactly once, and nothing else. Its order is fixed by `VarsAfterLoad`. |
| `WELServer.ResolveBound` | WELServer.py:44-49 | An element resolves exactly when it is `'none'` or text `fromisoformat` accepts. `'none'` gives the offset-free fallback. Otherwise the result is the parsed datetime. A datetime object raises TypeError and unparsable text raises ValueError. |
| `WELServer.TimeCondition` | WELServer.py:39-51 | No request gives `[beginTime, endTime]`. Otherwise element 0 becomes `beginTime` if it is `'none'` and is parsed if not. Element 1 is handled the same way with `endTime`. Elements after index 1 are left untouched. The call fails exactly when the list is shorter than two or an element neither is `'none'` nor parses. The errors come in the source's order: IndexError for an empty list, element 0's error, IndexError for a one-element list, then element 1's error. |
| `WELServer.WholeRangeEitherWay` | WELServer.py:41-49 | No request and `['none', 'none']` give the same window: the whole extent. |
| `WELServer.BoundsIndependent` | WELServer.py:44-49 | The start depends only on element 0 and the end only on element 1. |
| `WELServer.InvertedRangeKept` | WELServer.py:39-51 | A request whose end is before its start is accepted as it is, neither reordered nor rejected. |
| `WELServer.SelectAll` | WELServer.py:65 | Each y series is its column masked by the window, in the order of the y names. Otherwise KeyError names the first y that is not a column. |
| `WELServer.Plot` | WELServer.py:60-65 | Plot data is produced exactly when the range resolves, neither bound carries a UTC offset, and every named column exists. Errors come in the source's order: the range's error, then TypeError for an offset-carrying bound, then KeyError for `x`, then KeyError for the first missing y. On success, the x series and every y series come from the same selected rows, in row order. |
| `WELServer.PlotRowsStrictlyInside` | WELServer.py:62-65 | All plotted series have one cell per row with `start < dateTime < end`. A row is plotted exactly when its timestamp is strictly inside, and rows stay in order. |
| `WELServer.WholeRangeDropsEnds` | WELServer.py:60-63 | With no range requested, neither the first nor the last row is selected. |
| `WELPyLive.FoldIsLastWrite` | WELPyLive.py:36-38 | `Fold`, the loop `row[item['name']] = item['value']`, holds exactly the names that occur among the items. Each name maps to the value of the last item with that name. |
| `WELPyLive.FoldLastWins` | WELPyLive.py:10-12 | If a name is repeated, the later item's value wins. |
| `WELPyLive.Assemble` | WELPyLive.py:36-44 | A record is built exactly when the items name a `date` and a `time` that parse. A missing one raises KeyError. The record has `DateTime = combine(date, time)` and neither `date` nor `time`. Every other field holds its folded text. |
| `WELPyLive.AssemblePassesThrough` | WELPyLive.py:37-45 | Every name other than `date`, `time` and `DateTime` reaches the record with the value of its last item. |
| `WELPyLive.DateTimeOverridden` | WELPyLive.py:40-43 | When an incoming item is named `DateTime`, the record's `DateTime` is still `combine(date, time)` of the folded `date` and `time`. |
| `WELPyLive.Init` | WELPyLive.py:8-20 | The constructor gives a one-record table whose `beginTime` is that record's `DateTime`. It fails with the assembly's error when `date` or `time` is missing or malformed. |
| `WELPyLive.AddData` | WELPyLive.py:34-45 | Appends exactly one record at the end. Earlier records and `beginTime` are unchanged and the length grows by one. On an error the table is not replaced. |
| `WELPyLive.AddDataKeepsValid` | WELPyLive.py:34-45 | Every record keeps a timestamp `DateTime` and no `date` or `time`, and `beginTime` stays the first record's `DateTime`. |

## Left out

- Frames.Keep: its own contract only bounds the result's length. `KeepIsGather` states the exact contents, because a recursive function carrying that contract makes its induction too expensive.
- Reading the spreadsheet (`pd.read_excel`) is I/O. The model takes the sheet as an input frame with one kind per column.
- Setting the frame index to `dateTime` (WELServer.py:25) is not modelled. The masks in `plot` are built from the same frame, so they select by position.
- The numerics of `eff.rolling('D').mean()` are a library computation. `eff_rolling` is the caller-supplied `RollingMean` applied row by row. pandas' demand that the index be monotonic is not modelled.
- Floating point is modelled as exact `real` arithmetic plus NaN. Rounding and infinities are not modelled.
- `+` on two text columns concatenates in pandas. The model treats any non-float operand as TypeError.
- `timeCondition` writes the resolved bounds back into the caller's list. The model returns a new `Window` with the same content, and the aliasing is not modelled.
- A tuple passed as the range is not modelled.
- A `y` argument passed as a single string is not modelled. Python would iterate over its characters; the model takes a list of names.
- The semantics of `strptime`, `fromisoformat` and `datetime.combine` are not modelled. They are `Calendar` fields. Only whether `fromisoformat`'s result carries a UTC offset is kept.
- All drawing is UI and is not modelled: figure setup, the always-true `x == 'time' or ...` branch, axis labels, the legend (WELServer.py:67-81) and `livePlot` (WELPyLive.py:48-67).
- `getLiveData` (HTTP fetch, XML parsing, printing the error) is I/O. The item list is an input.
- Items without a `name` or `value` key are not modelled. Items are typed pairs.
- The live table is a sequence of records. How `pd.DataFrame` and `DataFrame.append` align columns and fill absent fields with NaN is not modelled.
- efficiency.py and monitor.py are not modelled. They call `time_from_args`, `plotVar` and `plotStatus`, which no modelled source file defines.
