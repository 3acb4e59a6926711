/**
 The non-presentation part of the dashboard page: reading the ticker list,
 fetching and merging each ticker's data, building the table, and the
 KPI-to-category lookup that styles the KPI column.
 */
module Dashboard {
  import opened Wrappers
  import opened PyStr
  import opened DataFetch

  function Min(a: int, b: int): int {
    if a <= b then a else b
  }

  /** One comma piece of the input, as the dashboard normalises it. */
  function Normalize(piece: string): (t: string)
    ensures |t| <= |piece|
    ensures Trimmed(t)
    ensures forall k :: 0 <= k < |t| ==> !IsLowerAscii(t[k])
  {
    var s := Strip(piece);
    var u := Upper(s);
    assert u != [] ==> (IsSpace(u[0]) <==> IsSpace(s[0])) && (IsSpace(u[|u| - 1]) <==> IsSpace(s[|s| - 1]));
    u
  }

  /** A piece without a comma stays without one. */
  lemma NormalizeKeepsNoComma(piece: string)
    requires ',' !in piece
    ensures ',' !in Normalize(piece)
  {
    var s := Strip(piece);
    var i := LeadingSpaces(piece);
    assert forall k :: 0 <= k < |s| ==> s[k] == piece[i + k];
    assert forall k :: 0 <= k < |s| ==> Upper(s)[k] != ',';
  }

  /**
   `[t.strip().upper() for t in tickers_input.split(",")][:3]`: the first three
   comma pieces, in input order, each stripped and upper-cased.
   */
  function ParseTickers(input: string): (r: seq<string>)
    ensures |r| == Min(3, |Split(input, ',')|)
    ensures forall i :: 0 <= i < |r| ==> r[i] == Normalize(Split(input, ',')[i])
  {
    var pieces := Split(input, ',');
    var tickers := seq(|pieces|, i requires 0 <= i < |pieces| => Normalize(pieces[i]));
    tickers[..Min(3, |tickers|)]
  }

  /** Each ticker is stripped, upper-case and free of commas. */
  lemma TickersAreNormal(input: string)
    ensures forall i :: 0 <= i < |ParseTickers(input)| ==>
      var t := ParseTickers(input)[i];
      && Trimmed(t)
      && ',' !in t
      && forall k :: 0 <= k < |t| ==> !IsLowerAscii(t[k])
  {
    var pieces := Split(input, ',');
    var r := ParseTickers(input);
    forall i | 0 <= i < |r|
      ensures ',' !in r[i]
    {
      NormalizeKeepsNoComma(pieces[i]);
    }
  }

  /** Upper-cased tickers never collide with the `'Notes'` key of a table row. */
  lemma NoTickerIsNotes(input: string)
    ensures "Notes" !in ParseTickers(input)
  {
    TickersAreNormal(input);
    assert IsLowerAscii("Notes"[1]);
  }

  /** The example of four tickers, of which the fourth is dropped. */
  lemma ParseTickersExample(input: string)
    requires input == "meta, aapl, msft, goog"
    ensures ParseTickers(input) == ["META", "AAPL", "MSFT"]
  {
    ExamplePieces(input);
    ParseTickersOfPieces(input, "META", "AAPL", "MSFT");
  }

  lemma ExamplePieces(input: string)
    requires input == "meta, aapl, msft, goog"
    ensures |Split(input, ',')| > 3
    ensures Normalize(Split(input, ',')[0]) == "META"
    ensures Normalize(Split(input, ',')[1]) == "AAPL"
    ensures Normalize(Split(input, ',')[2]) == "MSFT"
  {
    SplitExample();
    var ps := Split(input, ',');
    assert |ps| == 4 && ps[0] == "meta" && ps[1] == " aapl" && ps[2] == " msft";
    NormalizeMeta(ps[0]);
    NormalizeAapl(ps[1]);
    NormalizeMsft(ps[2]);
  }

  /** Only the first three pieces matter once there are more than three. */
  lemma ParseTickersOfPieces(input: string, a: string, b: string, c: string)
    requires |Split(input, ',')| > 3
    requires Normalize(Split(input, ',')[0]) == a
    requires Normalize(Split(input, ',')[1]) == b
    requires Normalize(Split(input, ',')[2]) == c
    ensures ParseTickers(input) == [a, b, c]
  {
    var r := ParseTickers(input);
    ListOfThree(r, a, b, c);
  }

  lemma ListOfThree(r: seq<string>, a: string, b: string, c: string)
    requires |r| == 3 && r[0] == a && r[1] == b && r[2] == c
    ensures r == [a, b, c]
  {
  }

  lemma SplitExample()
    ensures Split("meta, aapl, msft, goog", ',') == ["meta", " aapl", " msft", " goog"]
  {
    JoinExample();
    SplitJoin(["meta", " aapl", " msft", " goog"], ',');
  }

  /** A piece that is `t`, possibly after one space, normalises to `t` upper-cased. */
  lemma NormalizeExample(p: string, t: string, u: string)
    requires p == t || p == " " + t
    requires t != [] && Trimmed(t)
    requires |u| == |t| && forall i :: 0 <= i < |t| ==> u[i] == UpperChar(t[i])
    ensures Normalize(p) == u
  {
    StripExample(t);
  }

  // The example lemmas below take their literal as a parameter fixed by a
  // `requires` instead of writing it into the `ensures`. Each then reasons
  // about one short literal at a time, which keeps its proof obligation small
  // enough for the solver.

  lemma NormalizeMeta(p: string)
    requires p == "meta"
    ensures Normalize(p) == "META"
  {
    NormalizeExample(p, "meta", "META");
  }

  lemma NormalizeAapl(p: string)
    requires p == " aapl"
    ensures Normalize(p) == "AAPL"
  {
    assert p == " " + "aapl";
    NormalizeExample(p, "aapl", "AAPL");
  }

  lemma NormalizeMsft(p: string)
    requires p == " msft"
    ensures Normalize(p) == "MSFT"
  {
    assert p == " " + "msft";
    NormalizeExample(p, "msft", "MSFT");
  }

  lemma JoinExample()
    ensures Join(["meta", " aapl", " msft", " goog"], ',') == "meta, aapl, msft, goog"
  {
    var pieces := ["meta", " aapl", " msft", " goog"];
    assert pieces[1..] == [" aapl", " msft", " goog"];
    assert pieces[1..][1..] == [" msft", " goog"];
    assert pieces[1..][1..][1..] == [" goog"];
  }

  lemma StripExample(t: string)
    requires t != [] && Trimmed(t)
    ensures Strip(t) == t && Strip(" " + t) == t
  {
    assert LeadingSpaces(t) == 0 && TrailingSpaces(t) == 0;
    assert (" " + t)[1..] == t;
    assert LeadingSpaces(" " + t) == 1;
    assert TrailingSpaces(" " + t) == 0;
  }

  /** `{**yfinance_data, **alpha_vantage_data}`: the Alpha Vantage entries win. */
  function Merge(yf: map<string, Value>, av: map<string, Value>): (r: map<string, Value>)
    ensures r.Keys == yf.Keys + av.Keys
    ensures forall k :: k in av ==> r[k] == av[k]
    ensures forall k :: k in yf && k !in av ==> r[k] == yf[k]
  {
    yf + av
  }

  /** The merged data for one ticker, from the two responses its fetches got. */
  function TickerData(y: YfResponse, a: AvResponse): map<string, Value> {
    Merge(YFinanceData(y), AlphaVantageData(a))
  }

  /**
   What the merge leaves in a ticker's column: yfinance's keys and the PEG,
   with Alpha Vantage deciding the PEG and yfinance every other entry.
   */
  lemma TickerDataOutcome(y: YfResponse, a: AvResponse)
    ensures TickerData(y, a).Keys == YFinanceData(y).Keys + {Peg}
    ensures TickerData(y, a)[Peg] == AlphaVantageData(a)[Peg]
    ensures forall k :: k in YFinanceData(y) && k != Peg ==> TickerData(y, a)[k] == YFinanceData(y)[k]
  {
  }

  /** The body of the fetch loop for one ticker: both fetches, then the merge. */
  method FetchOne(y: YfResponse, a: AvResponse) returns (data: map<string, Value>)
    ensures data == TickerData(y, a)
  {
    var yfinanceData := YFinanceData(y);
    var alphaVantageData := AlphaVantageData(a);
    data := Merge(yfinanceData, alphaVantageData);
  }

  /** No position after `i` and before `k` holds the same ticker. */
  predicate LastBefore(tickers: seq<string>, i: int, k: int)
    requires 0 <= i < k <= |tickers|
  {
    forall j :: i < j < k ==> tickers[j] != tickers[i]
  }

  /** No later position holds the same ticker. */
  predicate LastOccurrence(tickers: seq<string>, i: int)
    requires 0 <= i < |tickers|
  {
    LastBefore(tickers, i, |tickers|)
  }

  /**
   The fetch loop: `yahoo[i]` and `alpha[i]` are what the two fetches for
   `tickers[i]` returned. Every ticker becomes a key, and a repeated ticker
   keeps the data of its last fetch.
   */
  method FetchAll(tickers: seq<string>, yahoo: seq<YfResponse>, alpha: seq<AvResponse>)
    returns (allData: map<string, map<string, Value>>)
    requires |yahoo| == |tickers| && |alpha| == |tickers|
    ensures allData.Keys == set t | t in tickers
    ensures forall i :: 0 <= i < |tickers| && LastOccurrence(tickers, i) ==>
      allData[tickers[i]] == TickerData(yahoo[i], alpha[i])
  {
    ghost var fetched := seq(|tickers|, j requires 0 <= j < |tickers| => TickerData(yahoo[j], alpha[j]));
    allData := map[];
    var k := 0;
    while k < |tickers|
      invariant 0 <= k <= |tickers|
      invariant forall t :: t in allData <==> t in tickers[..k]
      invariant forall i :: 0 <= i < k && LastBefore(tickers, i, k) ==> allData[tickers[i]] == fetched[i]
    {
      var ticker := tickers[k];
      var data := FetchOne(yahoo[k], alpha[k]);
      ghost var before := allData;
      allData := allData[ticker := data];
      assert tickers[..k + 1] == tickers[..k] + [ticker];
      forall i | 0 <= i < k + 1 && LastBefore(tickers, i, k + 1)
        ensures allData[tickers[i]] == fetched[i]
      {
        if i < k {
          assert tickers[k] != tickers[i];
          assert LastBefore(tickers, i, k);
          assert allData[tickers[i]] == before[tickers[i]];
        }
      }
      k := k + 1;
    }
    assert tickers[..|tickers|] == tickers;
  }

  /** A failed yfinance fetch leaves only Alpha Vantage's PEG in the ticker's column. */
  lemma YahooFailureColumn(y: YfResponse, a: AvResponse, kpi: string)
    requires YahooFails(y)
    ensures kpi != Peg ==> Lookup(TickerData(y, a), kpi) == NA
    ensures Lookup(TickerData(y, a), Peg) == AlphaVantageData(a)[Peg]
  {
  }

  /** Alpha Vantage decides the PEG cell, whatever yfinance returned. */
  lemma AlphaVantageWinsPeg(y: YfResponse, a: AvResponse)
    ensures Lookup(TickerData(y, a), Peg) == AlphaVantageData(a)[Peg]
  {
  }

  /** A failed Alpha Vantage fetch changes nothing in the ticker's column. */
  lemma AlphaFailureIsolated(y: YfResponse, kpi: string)
    ensures Lookup(TickerData(y, AvError), kpi) == Lookup(YFinanceData(y), kpi)
    ensures !YahooFails(y) ==> TickerData(y, AvError) == YFinanceData(y)
  {
    if !YahooFails(y) {
      var yf := YFinanceData(y);
      assert Peg in yf && yf[Peg] == NA;
      assert TickerData(y, AvError) == yf;
    }
  }

  /** The CSS class of each KPI row. */
  const CssClasses: map<string, string> := map[
    ForwardPe := "valuation",
    TtmPe := "valuation",
    Peg := "valuation",
    GrossMargin := "profitability",
    NetMargin := "profitability",
    TtmRevenueGrowth := "growth",
    CurrentYearRevenueGrowth := "growth",
    EvToRevenue := "enterprise",
    EvToEbitda := "enterprise",
    MarketCapB := "market",
    EnterpriseValueB := "market"
  ]

  const Categories: set<string> := {"valuation", "profitability", "growth", "enterprise", "market"}

  /** `get_kpi_css_class`: a category for each KPI, `''` for any other string. */
  function KpiCssClass(kpi: string): (c: string)
    ensures kpi in KpiSet ==> c in Categories
    ensures kpi !in KpiSet ==> c == ""
  {
    if kpi in CssClasses then CssClasses[kpi] else ""
  }

  /** The category of each row, by its position in the KPI order. */
  lemma CategoryByRow()
    ensures forall i :: 0 <= i < 3 ==> KpiCssClass(Kpis[i]) == "valuation"
    ensures forall i :: 3 <= i < 5 ==> KpiCssClass(Kpis[i]) == "profitability"
    ensures forall i :: 5 <= i < 7 ==> KpiCssClass(Kpis[i]) == "growth"
    ensures forall i :: 7 <= i < 9 ==> KpiCssClass(Kpis[i]) == "enterprise"
    ensures forall i :: 9 <= i < 11 ==> KpiCssClass(Kpis[i]) == "market"
  {
  }

  /** Each of the five categories styles some row. */
  lemma EveryCategoryUsed()
    ensures forall c :: c in Categories ==> exists i :: 0 <= i < |Kpis| && KpiCssClass(Kpis[i]) == c
  {
    assert KpiCssClass(Kpis[0]) == "valuation";
    assert KpiCssClass(Kpis[3]) == "profitability";
    assert KpiCssClass(Kpis[5]) == "growth";
    assert KpiCssClass(Kpis[7]) == "enterprise";
    assert KpiCssClass(Kpis[9]) == "market";
  }

  /** The cell of one ticker and KPI in the finished table. */
  function MergedCell(y: YfResponse, a: AvResponse, kpi: string): Value {
    Lookup(TickerData(y, a), kpi)
  }

  /**
   The page's data path with the corrected table builder: nothing happens for
   an empty input; otherwise the tickers are parsed, fetched, merged and
   tabulated, one response per fetch.
   */
  method Process(input: string, yahoo: seq<YfResponse>, alpha: seq<AvResponse>)
    returns (table: Option<seq<KpiRow>>)
    requires input != "" ==> |yahoo| == |ParseTickers(input)| && |alpha| == |ParseTickers(input)|
    ensures table.None? <==> input == ""
    ensures table.Some? ==>
      var rows, tickers := table.value, ParseTickers(input);
      && |rows| == |Kpis|
      && (forall n :: 0 <= n < |rows| ==> rows[n].kpi == Kpis[n] && rows[n].notes == NoteFor(Kpis[n]))
      && (forall n :: 0 <= n < |rows| ==> rows[n].cells.Keys == set t | t in tickers)
    ensures table.Some? ==>
      var rows, tickers := table.value, ParseTickers(input);
      forall i, n :: 0 <= i < |tickers| && LastOccurrence(tickers, i) && 0 <= n < |rows| ==>
        rows[n].cells[tickers[i]] == MergedCell(yahoo[i], alpha[i], Kpis[n])
  {
    if input == "" {
      return None;
    }
    var tickers := ParseTickers(input);
    var allData := FetchAll(tickers, yahoo, alpha);
    var rows := CreateKpiTable(tickers, allData);
    return Some(rows);
  }

  /**
   The page's data path as written, with `create_comparison_table`'s
   dictionary rows: the notes always survive, and the KPI names survive
   exactly when no ticker is called `KPI`.
   */
  method ProcessAsWritten(input: string, yahoo: seq<YfResponse>, alpha: seq<AvResponse>)
    returns (table: Option<seq<Row>>)
    requires input != "" ==> |yahoo| == |ParseTickers(input)| && |alpha| == |ParseTickers(input)|
    ensures table.None? <==> input == ""
    ensures table.Some? ==>
      var rows, tickers := table.value, ParseTickers(input);
      && |rows| == |Kpis|
      && (forall n :: 0 <= n < |rows| ==> rows[n].Keys == {"KPI", "Notes"} + (set t | t in tickers))
      && (forall n :: 0 <= n < |rows| ==> rows[n]["Notes"] == Text(NoteFor(Kpis[n])))
      && (forall n :: 0 <= n < |rows| ==> (rows[n]["KPI"] == Text(Kpis[n]) <==> "KPI" !in tickers))
    ensures table.Some? ==>
      var rows, tickers := table.value, ParseTickers(input);
      forall i, n :: 0 <= i < |tickers| && LastOccurrence(tickers, i) && 0 <= n < |rows| ==>
        rows[n][tickers[i]] == Metric(MergedCell(yahoo[i], alpha[i], Kpis[n]))
  {
    if input == "" {
      return None;
    }
    var tickers := ParseTickers(input);
    NoTickerIsNotes(input);
    var allData := FetchAll(tickers, yahoo, alpha);
    var rows := CreateComparisonTable(tickers, allData);
    return Some(rows);
  }
}
