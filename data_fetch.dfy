/**
 The data layer: the eleven KPIs and their notes, the two provider adapters
 (the yfinance snapshot and the Alpha Vantage overview, both given as inputs)
 and the builder of the row-per-KPI comparison table.
 */
module DataFetch {
  import opened Wrappers
  import opened PyNum

  /** A table value: a rounded number, or the `'N/A'` sentinel. */
  datatype Value = Num(x: real) | NA

  const ForwardPe: string := "Forward P/E Ratio"
  const TtmPe: string := "TTM P/E Ratio"
  const Peg: string := "PEG Ratio (5yr expected)"
  const GrossMargin: string := "Gross Margin (%)"
  const NetMargin: string := "Net Margin (%)"
  const TtmRevenueGrowth: string := "TTM Revenue Growth (%)"
  const CurrentYearRevenueGrowth: string := "Current Year Rev Growth (Est, %)"
  const EvToRevenue: string := "Enterprise Value/Revenue"
  const EvToEbitda: string := "Enterprise Value/EBITDA"
  const MarketCapB: string := "Market Cap (B)"
  const EnterpriseValueB: string := "Enterprise Value (B)"

  /** The row order of the comparison table. */
  const Kpis: seq<string> := [
    ForwardPe, TtmPe, Peg,
    GrossMargin, NetMargin,
    TtmRevenueGrowth, CurrentYearRevenueGrowth,
    EvToRevenue, EvToEbitda,
    MarketCapB, EnterpriseValueB
  ]

  const KpiSet: set<string> := {
    ForwardPe, TtmPe, Peg, GrossMargin, NetMargin, TtmRevenueGrowth, CurrentYearRevenueGrowth,
    EvToRevenue, EvToEbitda, MarketCapB, EnterpriseValueB
  }

  /** The fixed annotation shown in the notes column. */
  const KpiNotes: map<string, string> := map[
    ForwardPe := "Price vs next year's earnings. Tech avg: 20-35x",
    TtmPe := "Price vs trailing earnings. SaaS avg: 30-50x",
    Peg := "P/E vs growth rate. Fair value: 1.0x",
    GrossMargin := "Revenue left after COGS. SaaS avg: 70-85%",
    NetMargin := "Profit after all expenses. Strong: >20%",
    TtmRevenueGrowth := "Trailing 12-month revenue growth. SaaS avg: 15-30%",
    CurrentYearRevenueGrowth := "Analyst consensus for current fiscal year. Healthy: >10%",
    EvToRevenue := "EV vs revenue. SaaS avg: 8-12x",
    EvToEbitda := "EV vs EBITDA. SaaS avg: 20-30x",
    MarketCapB := "Total market value of shares. Context: Compare to peers",
    EnterpriseValueB := "Total company value (debt + equity - cash)"
  ]

  /** `KPI_NOTES.get(kpi, '')`: a KPI's own note, `''` for any other string. */
  function NoteFor(kpi: string): (n: string)
    ensures kpi in KpiSet ==> n == KpiNotes[kpi] && n != ""
    ensures kpi !in KpiSet ==> n == ""
  {
    EveryKpiHasNote();
    if kpi in KpiNotes then KpiNotes[kpi] else ""
  }

  /** The eleven names are pairwise different, so the table has eleven distinct rows. */
  lemma KpisDistinct()
    ensures |Kpis| == 11
    ensures forall i, j :: 0 <= i < j < |Kpis| ==> Kpis[i] != Kpis[j]
    ensures forall k :: k in KpiSet <==> k in Kpis
  {
  }

  /** Every KPI has a note and no note is empty. */
  lemma EveryKpiHasNote()
    ensures KpiNotes.Keys == KpiSet
    ensures forall k :: k in KpiNotes ==> KpiNotes[k] != ""
  {
    NotesNonEmpty();
  }

  lemma NotesNonEmpty()
    ensures forall k :: k in KpiNotes ==> |KpiNotes[k]| > 0
  {
  }

  /** `d.get(kpi, 'N/A')`. */
  function Lookup(m: map<string, Value>, kpi: string): (v: Value)
    ensures kpi in m ==> v == m[kpi]
    ensures kpi !in m ==> v == NA
  {
    if kpi in m then m[kpi] else NA
  }

  // ---------------------------------------------------------------------------
  // yfinance adapter

  /**
   The `info` snapshot: a field that is absent is not a key; a field the
   provider reports as `None` maps to `None`.
   */
  type Info = map<string, Option<real>>

  /**
   What one yfinance query gives: an error, or the info snapshot with the
   "Total Revenue" row of the financial statements (most recent period first),
   `None` when the statements have no such row.
   */
  datatype YfResponse = YfError | YfSnapshot(info: Info, revenue: Option<seq<real>>)

  /** `info.get(key, default)`; `None` is Python's `None`. */
  function Get(info: Info, key: string, default: real): (r: Option<real>)
    ensures r.None? <==> IsNull(info, key)
    ensures key !in info ==> r == Some(default)
    ensures key in info && info[key].Some? ==> r == info[key]
  {
    if key in info then info[key] else Some(default)
  }

  /** The field is present and set to `None`: using it raises `TypeError`. */
  predicate IsNull(info: Info, key: string) {
    key in info && info[key].None?
  }

  /** The field is present, numeric and greater than zero. */
  predicate Positive(info: Info, key: string) {
    key in info && info[key].Some? && info[key].value > 0.0
  }

  /** The number a non-null field stands for, 0 when it is absent. */
  function FieldOr0(info: Info, key: string): real
    requires !IsNull(info, key)
  {
    if key in info then info[key].value else 0.0
  }

  /** `round(info.get(key, 0), 1)`; `None` when that raises. */
  function RoundedField(info: Info, key: string): (r: Option<Value>)
    ensures r.None? <==> IsNull(info, key)
    ensures r.Some? ==> r.value == Num(Round1(FieldOr0(info, key)))
  {
    var v :- Get(info, key, 0.0);
    Some(Num(Round1(v)))
  }

  /** `round(info.get(key, 0) * 100, 1)`; `None` when that raises. */
  function PercentField(info: Info, key: string): (r: Option<Value>)
    ensures r.None? <==> IsNull(info, key)
    ensures r.Some? ==> r.value == Num(Round1(FieldOr0(info, key) * 100.0))
  {
    var v :- Get(info, key, 0.0);
    Some(Num(Round1(v * 100.0)))
  }

  /** `round(info.get(key, 0) / 1e9, 1)`; `None` when that raises. */
  function BillionsField(info: Info, key: string): (r: Option<Value>)
    ensures r.None? <==> IsNull(info, key)
    ensures r.Some? ==> r.value == Num(Round1(FieldOr0(info, key) / 1000000000.0))
  {
    var v :- Get(info, key, 0.0);
    Some(Num(Round1(v / 1000000000.0)))
  }

  /** Net Margin: defined only for a positive `totalRevenue`. */
  function NetMarginKpi(info: Info): (r: Option<Value>)
    ensures r.None? <==>
      IsNull(info, "totalRevenue") || (Positive(info, "totalRevenue") && IsNull(info, "netIncomeToCommon"))
    ensures r.Some? ==> (r.value == NA <==> !Positive(info, "totalRevenue"))
    ensures r.Some? && r.value.Num? ==>
      r.value.x == Round1(FieldOr0(info, "netIncomeToCommon") / info["totalRevenue"].value * 100.0)
  {
    var total :- Get(info, "totalRevenue", 0.0);
    if total > 0.0 then
      var income :- Get(info, "netIncomeToCommon", 0.0);
      // `info.get('totalRevenue', 1)` is the same positive number here
      var denominator := Get(info, "totalRevenue", 1.0).value;
      Some(Num(Round1(income / denominator * 100.0)))
    else Some(NA)
  }

  /** The most recent revenue, 0 without a revenue row; `None` when the row is empty. */
  function TtmRevenue(revenue: Option<seq<real>>): (r: Option<real>)
    ensures r.None? <==> revenue.Some? && |revenue.value| == 0
    ensures r.Some? ==> r.value == (if revenue.None? then 0.0 else revenue.value[0])
  {
    match revenue
    case None => Some(0.0)
    case Some(row) => if |row| == 0 then None else Some(row[0])
  }

  /** TTM Revenue Growth: needs a revenue row with a positive prior period. */
  function TtmGrowthKpi(revenue: Option<seq<real>>): (r: Option<Value>)
    ensures r.None? <==> revenue.Some? && |revenue.value| < 2
    ensures r.Some? ==> (r.value == NA <==> revenue.None? || revenue.value[1] <= 0.0)
    ensures r.Some? && r.value.Num? ==>
      r.value.x == Round1((revenue.value[0] / revenue.value[1] - 1.0) * 100.0)
  {
    match revenue
    case None => Some(NA)
    case Some(row) =>
      if |row| < 2 then None
      else if row[1] > 0.0 then Some(Num(Round1((row[0] / row[1] - 1.0) * 100.0)))
      else Some(NA)
  }

  /** Enterprise Value/Revenue: needs a positive TTM revenue. */
  function EvToRevenueKpi(info: Info, ttm: real): (r: Option<Value>)
    ensures r.None? <==> ttm > 0.0 && IsNull(info, "enterpriseValue")
    ensures r.Some? ==> (r.value == NA <==> ttm <= 0.0)
    ensures r.Some? && r.value.Num? ==> r.value.x == Round1(FieldOr0(info, "enterpriseValue") / ttm)
  {
    if ttm > 0.0 then
      var ev :- Get(info, "enterpriseValue", 0.0);
      Some(Num(Round1(ev / ttm)))
    else Some(NA)
  }

  /** Enterprise Value/EBITDA: needs a positive `ebitda`. */
  function EvToEbitdaKpi(info: Info): (r: Option<Value>)
    ensures r.None? <==>
      IsNull(info, "ebitda") || (Positive(info, "ebitda") && IsNull(info, "enterpriseValue"))
    ensures r.Some? ==> (r.value == NA <==> !Positive(info, "ebitda"))
    ensures r.Some? && r.value.Num? ==>
      r.value.x == Round1(FieldOr0(info, "enterpriseValue") / info["ebitda"].value)
  {
    var ebitda :- Get(info, "ebitda", 0.0);
    if ebitda > 0.0 then
      var ev :- Get(info, "enterpriseValue", 0.0);
      // `info.get('ebitda', 1)` is the same positive number here
      var denominator := Get(info, "ebitda", 1.0).value;
      Some(Num(Round1(ev / denominator)))
    else Some(NA)
  }

  /**
   The situations in which building the yfinance result raises: a revenue row
   with fewer than two periods (`iloc[1]`, or already `iloc[0]`), or a field the
   result uses that is `None`.
   */
  predicate Raises(info: Info, revenue: Option<seq<real>>) {
    || (revenue.Some? && |revenue.value| < 2)
    || IsNull(info, "forwardPE")
    || IsNull(info, "trailingPE")
    || IsNull(info, "grossMargins")
    || IsNull(info, "totalRevenue")
    || (Positive(info, "totalRevenue") && IsNull(info, "netIncomeToCommon"))
    || IsNull(info, "revenueGrowth")
    || IsNull(info, "ebitda")
    || IsNull(info, "marketCap")
    || IsNull(info, "enterpriseValue")
  }

  /** The dictionary with the `i`-th KPI mapped to `values[i]`. */
  function KpiMap(values: seq<Value>): (r: map<string, Value>)
    requires |values| == |Kpis|
    ensures r.Keys == KpiSet
    ensures && r[ForwardPe] == values[0] && r[TtmPe] == values[1] && r[Peg] == values[2]
            && r[GrossMargin] == values[3] && r[NetMargin] == values[4]
            && r[TtmRevenueGrowth] == values[5] && r[CurrentYearRevenueGrowth] == values[6]
            && r[EvToRevenue] == values[7] && r[EvToEbitda] == values[8]
            && r[MarketCapB] == values[9] && r[EnterpriseValueB] == values[10]
  {
    map[
      ForwardPe := values[0], TtmPe := values[1], Peg := values[2],
      GrossMargin := values[3], NetMargin := values[4],
      TtmRevenueGrowth := values[5], CurrentYearRevenueGrowth := values[6],
      EvToRevenue := values[7], EvToEbitda := values[8],
      MarketCapB := values[9], EnterpriseValueB := values[10]
    ]
  }

  /**
   The dictionary literal of the yfinance adapter, evaluated entry by entry;
   `None` when an entry raises. On success: the ten KPIs yfinance supplies plus
   an `'N/A'` PEG.
   */
  function YFinanceKpis(info: Info, revenue: Option<seq<real>>): (r: Option<map<string, Value>>)
    ensures r.None? <==> Raises(info, revenue)
    ensures r.Some? ==> r.value.Keys == KpiSet && r.value[Peg] == NA
  {
    var ttm :- TtmRevenue(revenue);
    var forwardPe :- RoundedField(info, "forwardPE");
    var trailingPe :- RoundedField(info, "trailingPE");
    var grossMargin :- PercentField(info, "grossMargins");
    var netMargin :- NetMarginKpi(info);
    var ttmGrowth :- TtmGrowthKpi(revenue);
    var yearGrowth :- PercentField(info, "revenueGrowth");
    var evToRevenue :- EvToRevenueKpi(info, ttm);
    var evToEbitda :- EvToEbitdaKpi(info);
    var marketCap :- BillionsField(info, "marketCap");
    var enterpriseValue :- BillionsField(info, "enterpriseValue");
    Some(KpiMap([forwardPe, trailingPe, NA, grossMargin, netMargin, ttmGrowth, yearGrowth,
                 evToRevenue, evToEbitda, marketCap, enterpriseValue]))
  }

  /** A successful yfinance result is the KPI map of the eleven entries' values. */
  lemma YFinanceKpisShape(info: Info, revenue: Option<seq<real>>, r: map<string, Value>)
    requires YFinanceKpis(info, revenue) == Some(r)
    ensures !Raises(info, revenue)
    ensures r == KpiMap([
      RoundedField(info, "forwardPE").value, RoundedField(info, "trailingPE").value, NA,
      PercentField(info, "grossMargins").value, NetMarginKpi(info).value,
      TtmGrowthKpi(revenue).value, PercentField(info, "revenueGrowth").value,
      EvToRevenueKpi(info, TtmRevenue(revenue).value).value, EvToEbitdaKpi(info).value,
      BillionsField(info, "marketCap").value, BillionsField(info, "enterpriseValue").value
    ])
  {
    assert !Raises(info, revenue);
  }

  /** On success every KPI without a denominator is a number: the rounded field, 0 when it is absent. */
  lemma YFinancePlainValues(info: Info, revenue: Option<seq<real>>, r: map<string, Value>)
    requires YFinanceKpis(info, revenue) == Some(r)
    ensures
      && r[ForwardPe] == Num(Round1(FieldOr0(info, "forwardPE")))
      && r[TtmPe] == Num(Round1(FieldOr0(info, "trailingPE")))
      && r[GrossMargin] == Num(Round1(FieldOr0(info, "grossMargins") * 100.0))
      && r[CurrentYearRevenueGrowth] == Num(Round1(FieldOr0(info, "revenueGrowth") * 100.0))
      && r[MarketCapB] == Num(Round1(FieldOr0(info, "marketCap") / 1000000000.0))
      && r[EnterpriseValueB] == Num(Round1(FieldOr0(info, "enterpriseValue") / 1000000000.0))
  {
    YFinanceKpisShape(info, revenue, r);
  }

  /** On success a ratio is `'N/A'` exactly when its denominator is missing or not positive. */
  lemma YFinanceSentinels(info: Info, revenue: Option<seq<real>>, r: map<string, Value>)
    requires YFinanceKpis(info, revenue) == Some(r)
    ensures
      && (r[NetMargin] == NA <==> !Positive(info, "totalRevenue"))
      && (r[EvToEbitda] == NA <==> !Positive(info, "ebitda"))
      && (r[EvToRevenue] == NA <==> !(revenue.Some? && revenue.value[0] > 0.0))
      && (r[TtmRevenueGrowth] == NA <==> !(revenue.Some? && revenue.value[1] > 0.0))
  {
    YFinanceKpisShape(info, revenue, r);
  }

  /** On success a ratio that is a number is the rounded quotient of its fields. */
  lemma YFinanceRatios(info: Info, revenue: Option<seq<real>>, r: map<string, Value>)
    requires YFinanceKpis(info, revenue) == Some(r)
    ensures r[NetMargin].Num? ==>
      r[NetMargin].x == Round1(FieldOr0(info, "netIncomeToCommon") / info["totalRevenue"].value * 100.0)
    ensures r[EvToEbitda].Num? ==>
      r[EvToEbitda].x == Round1(FieldOr0(info, "enterpriseValue") / info["ebitda"].value)
    ensures r[EvToRevenue].Num? ==>
      r[EvToRevenue].x == Round1(FieldOr0(info, "enterpriseValue") / revenue.value[0])
    ensures r[TtmRevenueGrowth].Num? ==>
      r[TtmRevenueGrowth].x == Round1((revenue.value[0] / revenue.value[1] - 1.0) * 100.0)
  {
    YFinanceKpisShape(info, revenue, r);
  }

  /** The yfinance query failed or the adapter raised: it returns `{}`. */
  predicate YahooFails(resp: YfResponse) {
    resp.YfError? || Raises(resp.info, resp.revenue)
  }

  /** `get_yfinance_data`: the evaluated dictionary, or `{}` on any failure. */
  function YFinanceData(resp: YfResponse): (r: map<string, Value>)
    ensures r == map[] <==> YahooFails(resp)
    ensures !YahooFails(resp) ==> r == YFinanceKpis(resp.info, resp.revenue).value
  {
    match resp
    case YfError => map[]
    case YfSnapshot(info, revenue) =>
      match YFinanceKpis(info, revenue)
      case None => map[]
      case Some(kpis) =>
        assert ForwardPe in kpis;
        kpis
  }

  /** The example of an EV of 50 billion over an EBITDA of 2 billion. */
  lemma EvToEbitdaExample()
    ensures YFinanceData(YfSnapshot(map["enterpriseValue" := Some(50000000000.0), "ebitda" := Some(2000000000.0)], None))[EvToEbitda]
         == Num(25.0)
  {
    RoundTenths(250);
  }

  /** A zero EBITDA gives the sentinel, not a division error. */
  lemma ZeroEbitdaExample()
    ensures YFinanceData(YfSnapshot(map["ebitda" := Some(0.0)], None))[EvToEbitda] == NA
  {
  }

  /** Revenue 120 after 100 is 20% growth. */
  lemma TtmGrowthExample()
    ensures YFinanceData(YfSnapshot(map[], Some([120.0, 100.0])))[TtmRevenueGrowth] == Num(20.0)
  {
    RoundTenths(200);
  }

  /** A single period of revenue history is an `IndexError`, so the whole result is `{}`. */
  lemma ShortRevenueHistoryExample(info: Info, r0: real)
    ensures YFinanceData(YfSnapshot(info, Some([r0]))) == map[]
  {
  }

  // ---------------------------------------------------------------------------
  // Alpha Vantage adapter

  /** What one Alpha Vantage company-overview query gives: an error, or its string fields. */
  datatype AvResponse = AvError | AvOverview(fields: map<string, string>)

  /** The overview carries a non-empty `PEGRatio` that `float` accepts. */
  predicate HasPeg(resp: AvResponse) {
    && resp.AvOverview?
    && "PEGRatio" in resp.fields
    && resp.fields["PEGRatio"] != ""
    && ParseFloat(resp.fields["PEGRatio"]).Some?
  }

  /**
   `get_alpha_vantage_data`: always exactly the PEG key; a number when the
   overview carries a usable `PEGRatio`, `'N/A'` when it is absent or empty,
   when `float` rejects it, and when the query fails.
   */
  function AlphaVantageData(resp: AvResponse): (r: map<string, Value>)
    ensures r.Keys == {Peg}
    ensures r[Peg] == NA <==> !HasPeg(resp)
    ensures HasPeg(resp) ==> r[Peg] == Num(Round1(ParseFloat(resp.fields["PEGRatio"]).value))
  {
    match resp
    case AvError => map[Peg := NA]
    case AvOverview(fields) =>
      if "PEGRatio" in fields && fields["PEGRatio"] != "" then
        match ParseFloat(fields["PEGRatio"])
        case None => map[Peg := NA]
        case Some(v) => map[Peg := Num(Round1(v))]
      else map[Peg := NA]
  }

  /** An overview whose `PEGRatio` is the text `"None"` gives the `'N/A'` cell. */
  lemma NonePegIsNA(fields: map<string, string>)
    requires "PEGRatio" in fields && fields["PEGRatio"] == "None"
    ensures AlphaVantageData(AvOverview(fields))[Peg] == NA
  {
    ParseFloatRejectsNone(fields["PEGRatio"]);
  }

  // ---------------------------------------------------------------------------
  // Comparison table, as written: each row is a dictionary

  /** A row entry: the KPI name or note text, or a ticker's value. */
  datatype Cell = Text(text: string) | Metric(value: Value)

  type Row = map<string, Cell>

  /**
   One row as `create_comparison_table` builds it: the `'KPI'` and `'Notes'`
   entries first, then one assignment per ticker in order, so a ticker named
   `KPI` or `Notes` overwrites that entry.
   */
  function RowAsWritten(kpi: string, tickers: seq<string>, allData: map<string, map<string, Value>>): (row: Row)
    requires forall t :: t in tickers ==> t in allData
    ensures row.Keys == {"KPI", "Notes"} + (set t | t in tickers)
    ensures forall t :: t in tickers ==> row[t] == Metric(Lookup(allData[t], kpi))
    ensures "KPI" !in tickers ==> row["KPI"] == Text(kpi)
    ensures "Notes" !in tickers ==> row["Notes"] == Text(NoteFor(kpi))
  {
    if tickers == [] then map["KPI" := Text(kpi), "Notes" := Text(NoteFor(kpi))]
    else
      var last := tickers[|tickers| - 1];
      RowAsWritten(kpi, tickers[..|tickers| - 1], allData)[last := Metric(Lookup(allData[last], kpi))]
  }

  /** A ticker named `KPI` replaces the KPI name of every row with its own value. */
  lemma KpiTickerHidesLabel(kpi: string, tickers: seq<string>, allData: map<string, map<string, Value>>)
    requires forall t :: t in tickers ==> t in allData
    requires "KPI" in tickers
    ensures RowAsWritten(kpi, tickers, allData)["KPI"] != Text(kpi)
  {
  }

  /**
   `create_comparison_table` as written: one dictionary row per KPI, in the
   fixed order. Every ticker must be a key of `allData`.
   */
  method CreateComparisonTable(tickers: seq<string>, allData: map<string, map<string, Value>>)
    returns (rows: seq<Row>)
    requires forall t :: t in tickers ==> t in allData
    ensures |rows| == |Kpis|
    ensures forall i :: 0 <= i < |rows| ==> rows[i] == RowAsWritten(Kpis[i], tickers, allData)
  {
    rows := [];
    var i := 0;
    while i < |Kpis|
      invariant 0 <= i <= |Kpis|
      invariant |rows| == i
      invariant forall n :: 0 <= n < i ==> rows[n] == RowAsWritten(Kpis[n], tickers, allData)
    {
      var row := BuildRowAsWritten(Kpis[i], tickers, allData);
      rows := rows + [row];
      i := i + 1;
    }
  }

  /** The body of the KPI loop: the two labels, then each ticker's value in turn. */
  method BuildRowAsWritten(kpi: string, tickers: seq<string>, allData: map<string, map<string, Value>>)
    returns (row: Row)
    requires forall t :: t in tickers ==> t in allData
    ensures row == RowAsWritten(kpi, tickers, allData)
  {
    row := map["KPI" := Text(kpi), "Notes" := Text(NoteFor(kpi))];
    var j := 0;
    while j < |tickers|
      invariant 0 <= j <= |tickers|
      invariant row == RowAsWritten(kpi, tickers[..j], allData)
    {
      var ticker := tickers[j];
      assert tickers[..j + 1][..j] == tickers[..j];
      assert RowAsWritten(kpi, tickers[..j + 1], allData) == row[ticker := Metric(Lookup(allData[ticker], kpi))];
      row := row[ticker := Metric(Lookup(allData[ticker], kpi))];
      j := j + 1;
    }
    assert tickers[..|tickers|] == tickers;
  }

  // ---------------------------------------------------------------------------
  // Comparison table, corrected: the KPI name and the note are kept apart from
  // the ticker columns

  datatype KpiRow = KpiRow(kpi: string, cells: map<string, Value>, notes: string)

  /**
   The table the builder is meant to produce: row `i` names the `i`-th KPI and
   carries its note whatever the tickers are called, and holds one cell per
   ticker, `'N/A'` where that ticker's data lacks the KPI.
   */
  method CreateKpiTable(tickers: seq<string>, allData: map<string, map<string, Value>>)
    returns (rows: seq<KpiRow>)
    requires forall t :: t in tickers ==> t in allData
    ensures |rows| == |Kpis|
    ensures forall i :: 0 <= i < |rows| ==> rows[i].kpi == Kpis[i] && rows[i].notes == NoteFor(Kpis[i])
    ensures forall i :: 0 <= i < |rows| ==> rows[i].cells.Keys == set t | t in tickers
    ensures forall i, t :: 0 <= i < |rows| && t in tickers ==> rows[i].cells[t] == Lookup(allData[t], Kpis[i])
  {
    rows := [];
    var i := 0;
    while i < |Kpis|
      invariant 0 <= i <= |Kpis|
      invariant |rows| == i
      invariant forall n :: 0 <= n < i ==> rows[n].kpi == Kpis[n] && rows[n].notes == NoteFor(Kpis[n])
      invariant forall n :: 0 <= n < i ==> CellsOf(rows[n].cells, Kpis[n], tickers, allData)
    {
      var kpi := Kpis[i];
      var cells := BuildCells(kpi, tickers, allData);
      rows := rows + [KpiRow(kpi, cells, NoteFor(kpi))];
      i := i + 1;
    }
  }

  /** `cells` has one cell per ticker, `'N/A'` where that ticker's data lacks `kpi`. */
  predicate CellsOf(cells: map<string, Value>, kpi: string, tickers: seq<string>, allData: map<string, map<string, Value>>)
    requires forall t :: t in tickers ==> t in allData
  {
    && cells.Keys == (set t | t in tickers)
    && forall t :: t in tickers ==> cells[t] == Lookup(allData[t], kpi)
  }

  /** One cell per ticker, `'N/A'` where that ticker's data lacks the KPI. */
  method BuildCells(kpi: string, tickers: seq<string>, allData: map<string, map<string, Value>>)
    returns (cells: map<string, Value>)
    requires forall t :: t in tickers ==> t in allData
    ensures cells.Keys == set t | t in tickers
    ensures forall t :: t in tickers ==> cells[t] == Lookup(allData[t], kpi)
  {
    cells := map[];
    var j := 0;
    while j < |tickers|
      invariant 0 <= j <= |tickers|
      invariant cells.Keys == set t | t in tickers[..j]
      invariant forall t :: t in tickers[..j] ==> cells[t] == Lookup(allData[t], kpi)
    {
      var ticker := tickers[j];
      cells := cells[ticker := Lookup(allData[ticker], kpi)];
      j := j + 1;
      assert tickers[..j] == tickers[..j - 1] + [ticker];
    }
    assert tickers[..|tickers|] == tickers;
  }
}
