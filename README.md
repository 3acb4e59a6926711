# Stock KPI dashboard: a verified model of its data path

The stock KPI dashboard reads up to three tickers from a text box. For each
ticker it asks yfinance for a company snapshot and Alpha Vantage for a company
overview, and merges the two answers. It then builds a table with one row per
KPI, in a fixed order of eleven: the KPI name, one cell per ticker and a fixed
note. Finally it styles each row by KPI category.

This project models that data path in Dafny and proves what it does:

- `wrappers.dfy`: the `Option` type. `None` stands for Python's `None` and for
  "this step raised".
- `pystr.dfy`: the Python string operations the ticker input goes through.
  These are `str.split(",")`, `str.strip()` and `str.upper()`.
- `pynum.dfy`: `round(x, 1)` on exact reals, and `float(s)` on decimal strings.
- `data_fetch.dfy`: the data layer.
  - The eleven KPI names, their notes and their table order.
  - The yfinance adapter, with the snapshot given as an input value.
  - The Alpha Vantage adapter, with the overview given as an input value.
  - The table builder, both as written and in a corrected form (see Findings).
- `dashboard.dfy`: the page's non-presentation logic.
  - Ticker parsing.
  - The fetch-and-merge loop. The responses of the two providers are inputs,
    one response per fetch, in ticker order.
  - The KPI-to-CSS-category lookup.
  - `ProcessAsWritten`, which runs the whole path for one input string with
    the table builder as written, and `Process`, which runs it with the
    corrected builder.

The network, the clock and the providers are not modelled. What each fetch
returned is a parameter:

- `YfResponse` is either `YfError` or a snapshot. A snapshot is the `info`
  map, with every field an optional number, and the "Total Revenue" row,
  most recent period first.
- `AvResponse` is either `AvError` or the overview's string fields.

An exception inside an adapter is modelled as the adapter's failure value:
`{}` for yfinance and `{PEG: 'N/A'}` for Alpha Vantage.

Two facts about this model:

- When the yfinance fetch fails, the PEG cell of that ticker still holds
  Alpha Vantage's value, which can be a number; every other cell of the
  column is `'N/A'` (`Dashboard.YahooFailureColumn`).
- `round` is defined as Python's round-half-even on exact reals. No claim
  about binary floating point is made.

## Model

| member | source | states |
|---|---|---|
| DataFetch.KpisDistinct | data_fetch.py:71-77 | There are eleven KPI names, pairwise distinct, and the KPI set is exactly the names of the order list. |
| DataFetch.NoteFor | data_fetch.py:81 | `KPI_NOTES.get(kpi, '')` is the KPI's own non-empty note for each of the eleven KPIs and `''` for every other string. |
| DataFetch.Get | data_fetch.py:30-50 | `info.get(key, default)` is `default` for an absent key and the field for a present number; it is `None` (the later arithmetic raises) exactly when the field is present and `None`. |
| DataFetch.Lookup | data_fetch.py:83 | `d.get(kpi, 'N/A')` is the stored value when `kpi` is a key and `'N/A'` otherwise. |
| DataFetch.EveryKpiHasNote | data_fetch.py:7-19 | The note dictionary has exactly the eleven KPIs as keys, so `KPI_NOTES.get(kpi, '')` gives every KPI its non-empty note. |
| DataFetch.RoundedField | data_fetch.py:30-31 | `round(info.get(key, 0), 1)` raises exactly when the field is `None`; otherwise it is the rounded field, 0 when absent. |
| DataFetch.PercentField | data_fetch.py:33 | `round(info.get(key, 0) * 100, 1)` raises exactly when the field is `None`; otherwise it is the rounded percentage. |
| DataFetch.BillionsField | data_fetch.py:49-50 | `round(info.get(key, 0) / 1e9, 1)` raises exactly when the field is `None`; otherwise it is the rounded value in billions. |
| DataFetch.NetMarginKpi | data_fetch.py:34-37 | Net Margin is `'N/A'` exactly when `totalRevenue` is not a positive number. It raises for a `None` revenue, or a `None` income with a positive revenue. Otherwise it is the rounded income/revenue percentage. |
| DataFetch.TtmRevenue | data_fetch.py:27 | The TTM revenue raises exactly when the revenue row is empty; otherwise it is the newest period's revenue, or 0 without a revenue row. |
| DataFetch.TtmGrowthKpi | data_fetch.py:38-41 | Growth raises exactly for a revenue row with fewer than two periods. It is `'N/A'` exactly when there is no row or the prior period is not positive; otherwise it is round((r0/r1 - 1)*100). |
| DataFetch.EvToRevenueKpi | data_fetch.py:43-45 | EV/Revenue is `'N/A'` exactly when the TTM revenue is not positive. Otherwise it is the rounded quotient, or it raises for a `None` enterprise value. |
| DataFetch.EvToEbitdaKpi | data_fetch.py:46-48 | EV/EBITDA is `'N/A'` exactly when `ebitda` is not a positive number. Otherwise it is the rounded quotient; it raises for a `None` EBITDA, or a `None` EV with a positive EBITDA. |
| DataFetch.KpiMap | data_fetch.py:29-51 | The result dictionary has exactly the eleven KPI keys, each bound to its entry. |
| DataFetch.YFinanceKpis | data_fetch.py:29-51 | Evaluating the dictionary literal raises exactly under `Raises`. On success the keys are exactly the eleven KPIs and PEG is `'N/A'`. |
| DataFetch.YFinancePlainValues | data_fetch.py:30-50 | On success the six KPIs without a guard are numbers: the rounded field, its percentage or its billions, with 0 for an absent field. |
| DataFetch.YFinanceSentinels | data_fetch.py:27-48 | On success the four guarded ratios are `'N/A'` exactly when their denominator is missing or not positive. |
| DataFetch.YFinanceRatios | data_fetch.py:34-48 | On success each guarded ratio that is a number is the rounded quotient of its fields. |
| DataFetch.YFinanceData | data_fetch.py:21-54 | `get_yfinance_data` returns `{}` exactly when the query failed or the dictionary raised; otherwise the evaluated dictionary. |
| DataFetch.EvToEbitdaExample | data_fetch.py:46-48 | An EV of 50 billion over an EBITDA of 2 billion gives 25.0. |
| DataFetch.ZeroEbitdaExample | data_fetch.py:47 | A zero EBITDA gives `'N/A'`, not a division error. |
| DataFetch.TtmGrowthExample | data_fetch.py:38-41 | Revenue of 120 after 100 gives 20.0 percent growth. |
| DataFetch.ShortRevenueHistoryExample | data_fetch.py:38-54 | A revenue row with a single period raises at `iloc[1]`, so the result is `{}` whatever `info` holds. |
| DataFetch.AlphaVantageData | data_fetch.py:56-65 | `get_alpha_vantage_data` always has exactly the PEG key. The value is `'N/A'` exactly when the query fails, `PEGRatio` is absent or empty, or `float` rejects it. Otherwise it is the rounded parsed value. |
| DataFetch.NonePegIsNA | data_fetch.py:61-65 | An overview whose `PEGRatio` is the text `"None"` gives the `'N/A'` PEG cell: the text is non-empty, so `float` is called and raises. |
| DataFetch.RowAsWritten | data_fetch.py:81-83 | A row as written has keys `KPI`, `Notes` and every ticker; each ticker's cell is its value or `'N/A'`. The KPI name and the note survive only when no ticker has that name. |
| DataFetch.KpiTickerHidesLabel | data_fetch.py:81-83 | A ticker named `KPI` replaces the row's KPI name. |
| DataFetch.BuildRowAsWritten | data_fetch.py:81-83 | The per-ticker assignment loop builds exactly the row as written. |
| DataFetch.CreateComparisonTable | data_fetch.py:67-86 | `create_comparison_table` as written gives eleven rows, where row i is the row as written for the i-th KPI. |
| DataFetch.BuildCells | data_fetch.py:82-83 | The cells have exactly the tickers as keys, each being `all_data[ticker].get(kpi, 'N/A')`. |
| DataFetch.CreateKpiTable | data_fetch.py:67-86 | The corrected builder gives eleven rows in KPI order, each with its KPI name, its note, exactly the tickers as cell keys, and each cell the ticker's value or `'N/A'`. |
| PyStr.Strip | dashboard.py:72 | `strip()` returns a contiguous slice of the input with no whitespace at either end; everything cut away on either side is whitespace. |
| PyStr.StripIdempotent | dashboard.py:72 | Stripping twice gives the same result as stripping once. |
| PyStr.Upper | dashboard.py:72 | `upper()` keeps the length, maps each character by `UpperChar`, leaves no lower-case ASCII letter and keeps whitespace where it was. |
| PyStr.UpperIdempotent | dashboard.py:72 | Upper-casing an upper-cased string changes nothing, so a parsed ticker is already in its final case. |
| PyStr.UpperChar | dashboard.py:72 | A lower-case ASCII letter becomes its capital; any other character is kept. |
| PyStr.Split | dashboard.py:72 | `split(sep)` gives at least one piece and no piece holds `sep`. |
| PyStr.JoinSplit | dashboard.py:72 | Joining the pieces of a split with the separator gives back the input. |
| PyStr.SplitJoin | dashboard.py:72 | Splitting a join of separator-free pieces gives back the pieces. |
| PyNum.Round1 | data_fetch.py:30 | `round(x, 1)` is within 0.05 of `x`. |
| PyNum.RoundTenths | data_fetch.py:30 | A value that already has one decimal place is left unchanged by `round(x, 1)`. |
| PyNum.ParseUnsigned | data_fetch.py:61 | An unsigned decimal parses to a non-negative number (which strings it accepts, and to what, is stated by the lemmas below). |
| PyNum.ParseFloat | data_fetch.py:61 | `float(s)` rejects a string that is empty after stripping whitespace (its full accepted set is `PyNum.ParseFloatAccepts`). |
| PyNum.DecimalBounds | data_fetch.py:61 | The value of `whole.frac`, `whole` plus `frac / 10^len(frac)`, lies in `[whole, whole + 1)`: the digits before the point are its integer part. |
| PyNum.UnsignedDecimal | data_fetch.py:61 | Any `whole.frac` with digit-only parts and at least one digit parses to the decimal it denotes. |
| PyNum.ParseUnsignedAccepts | data_fetch.py:61 | The unsigned parser accepts exactly the decimal forms: a non-empty digit string, or digits around a single point with at least one digit in all. |
| PyNum.DecimalFormChars | data_fetch.py:61 | A decimal form is non-empty and made of digits and points only. |
| PyNum.UnsignedDigits | data_fetch.py:61 | A non-empty digit string parses to the number it denotes. |
| PyNum.ParseFloatAccepts | data_fetch.py:61 | `float(s)` succeeds exactly when the stripped string is a decimal form, bare or behind one `+` or `-`. |
| PyNum.ParseFloatChars | data_fetch.py:61 | Whatever `float(s)` accepts is non-empty after stripping and holds only digits and points, apart from one leading sign. |
| PyNum.ParseFloatRejectsNone | data_fetch.py:61 | `float("None")` is rejected. |
| PyNum.UnsignedOfNatToString | data_fetch.py:61 | A digit string without a point, such as `str(n)`, parses to the number it denotes. |
| PyNum.ParseUnsignedForm | data_fetch.py:61 | A sign-less form without surrounding whitespace that parses unsigned to `v` gives `float(s) == v`, `float("+" + s) == v` and `float("-" + s) == -v`. |
| PyNum.ParseFloatDecimal | data_fetch.py:61 | `float("whole.frac")` and `float("+whole.frac")` are that decimal and `float("-whole.frac")` its negation. |
| PyNum.ParseFloatExample | data_fetch.py:61 | `float("1.52")` is 1.52. |
| PyNum.ParseFloatOfNatToString | data_fetch.py:61 | `float(str(n)) == n` and `float("-" + str(n)) == -n` for every natural number. |
| Dashboard.Normalize | dashboard.py:72 | A normalised piece is no longer than the piece, has no whitespace at either end and no lower-case ASCII letter. |
| Dashboard.NormalizeKeepsNoComma | dashboard.py:72 | Normalising a comma-free piece leaves it comma-free. |
| Dashboard.ParseTickers | dashboard.py:72 | There are min(3, number of pieces) tickers, and ticker i is the stripped, upper-cased i-th comma piece. |
| Dashboard.TickersAreNormal | dashboard.py:72 | Every parsed ticker has no surrounding whitespace, no comma and no lower-case ASCII letter. |
| Dashboard.NoTickerIsNotes | dashboard.py:72 | No parsed ticker can be `Notes`, so no ticker overwrites a row's note (the row is built at data_fetch.py:81-83). |
| Dashboard.ParseTickersExample | dashboard.py:69-72 | `"meta, aapl, msft, goog"` parses to `META`, `AAPL`, `MSFT`; the fourth is dropped. |
| Dashboard.Merge | dashboard.py:79 | `{**yf, **av}` has the union of the keys; Alpha Vantage's value wins on a shared key and yfinance's value is kept elsewhere. |
| Dashboard.TickerDataOutcome | dashboard.py:77-79 | A ticker's merged column has yfinance's keys plus PEG; PEG is Alpha Vantage's value and every other key keeps yfinance's value. |
| Dashboard.FetchAll | dashboard.py:75-79 | After the loop every parsed ticker is a key and there are no others. A repeated ticker holds the data of its last fetch. |
| Dashboard.YahooFailureColumn | dashboard.py:79 | After a failed yfinance fetch every cell but PEG of that ticker is `'N/A'`, and the PEG cell is Alpha Vantage's value (yfinance's failure gives `{}` at data_fetch.py:52-54, and missing keys default to `'N/A'` at data_fetch.py:83). |
| Dashboard.AlphaVantageWinsPeg | dashboard.py:79 | The PEG cell is always Alpha Vantage's value, whatever yfinance returned (yfinance's PEG is the sentinel of data_fetch.py:32). |
| Dashboard.AlphaFailureIsolated | dashboard.py:79 | A failed Alpha Vantage fetch leaves the ticker's cells as yfinance gave them (its failure value, data_fetch.py:63-65, carries only the sentinel PEG). |
| Dashboard.KpiCssClass | dashboard.py:85-99 | Each of the eleven KPIs maps to one of the five categories, and every other string maps to `''`. |
| Dashboard.CategoryByRow | dashboard.py:85-99 | Rows 1-3 are `valuation`, 4-5 `profitability`, 6-7 `growth`, 8-9 `enterprise` and 10-11 `market`. |
| Dashboard.EveryCategoryUsed | dashboard.py:85-99 | Each of the five categories styles at least one KPI row. |
| Dashboard.ProcessAsWritten | dashboard.py:69-82 | The path as written: an empty input produces nothing. Otherwise there are eleven rows, keyed by `KPI`, `Notes` and exactly the parsed tickers; every note survives; the KPI name survives exactly when no ticker is `KPI`; each ticker cell is the merged value of that ticker's last fetch, or `'N/A'`. |
| Dashboard.Process | dashboard.py:69-82 | The same path with the corrected builder in place of `create_comparison_table` at dashboard.py:82: an empty input produces nothing. Otherwise the table has eleven rows in KPI order, each with its note; its cells are keyed by exactly the parsed tickers; and each cell is the merged value of that ticker's last fetch, or `'N/A'`. |

## Left out

- The Streamlit page, its CSS and the HTML table (dashboard.py:1-67 and from line 101 on): presentation and I/O only. `Dashboard.KpiCssClass` models the one lookup the rendering uses.
- The yfinance and Alpha Vantage network calls, `FundamentalData` and the embedded API key: foreign calls, replaced by the `YfResponse` and `AvResponse` inputs.
- The pandas `DataFrame` around the rows (data_fetch.py:86): the table is a sequence of rows.
- Floating-point arithmetic: values are exact reals, so `round`, `* 100` and `/ 1e9` are exact. Binary rounding effects, NaN and infinities cannot arise.
- Non-numeric `info` values (a string where a number is expected): an `info` field is either a number or `None`.
- PyNum.ParseFloat: accepts only an optional sign and ASCII digits with at most one point, at least one digit in all, after stripping (`PyNum.ParseFloatAccepts`). Exponents, `inf`, `nan`, underscores and non-ASCII decimal digits (`'١٢'`), which Python's `float` also accepts, are rejected, so the PEG cell becomes `'N/A'` for them.
- PyStr.Upper and PyStr.UpperChar: upper-case ASCII letters only. Python's `upper()` also maps non-ASCII letters and can change the length (`'ß'` becomes `'SS'`).
- The `print` logging in both exception handlers (data_fetch.py:53, 64): output only.
- Dashboard.Process: calls the corrected builder `DataFetch.CreateKpiTable`, whereas dashboard.py:82 calls `create_comparison_table` as written; `Dashboard.ProcessAsWritten` is the path exactly as the page runs it.
- Aliasing: Python dictionaries are shared objects, while maps here are values. That the builder never changes `all_data` therefore holds by construction and is not stated as a contract.

## Findings

| source | as written | input that shows it | evidently intended | confidence | as-written member | corrected member |
|---|---|---|---|---|---|---|
| data_fetch.py:81-83 | Each row is a dictionary whose `'KPI'` and `'Notes'` keys share a namespace with the ticker columns, so `row[ticker] = ...` overwrites the KPI name when a ticker is `KPI`. | Ticker input `kpi`, which parses to `KPI`: every row's KPI column then shows that ticker's value, and the CSS lookup of that value gives `''`. | The KPI name and the note are kept apart from the ticker cells, so every row keeps its name whatever the tickers are called. | medium (not executed) | DataFetch.KpiTickerHidesLabel | DataFetch.CreateKpiTable |
