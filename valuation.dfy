/** The dashboard page: the holding-to-position mapping, the KPI computation and the page's load. */
module Valuation {
  import opened Common
  import opened PositionsTable

  /** The joined asset of a holding row; each field may be missing. `currentPrice` is `None` when
      the stored value is absent or does not convert to a number. */
  datatype AssetRow = AssetRow(symbol: Option<string>, name: Option<string>, currentPrice: Option<real>)

  /** A `portfolio_holdings` row with its `asset:assets(*)` join, which may be missing. */
  datatype HoldingRow = HoldingRow(id: string, asset: Option<AssetRow>, totalQuantity: real, averageCost: real)

  /** A `portfolio_history` row; `recordedAt` is the timestamp as the store keeps it. */
  datatype HistoryRow = HistoryRow(recordedAt: int, totalValue: real)

  /** A point of the chart. The month label derived from the date is display formatting and is
      kept here as the raw timestamp. */
  datatype ChartPoint = ChartPoint(date: int, value: real)

  /** The reply of a store query: an error, or data that may itself be `null`. */
  datatype Query<T> = QueryError(message: string) | QueryData(data: Option<T>)

  /** The four figures the KPI cards show. */
  datatype Kpis = Kpis(totalValue: real, pnl: real, pnlPercentage: real, annualizedReturn: real)

  const NoKpis := Kpis(0.0, 0.0, 0.0, 0.0)

  /** The `.limit(...)` of the history query. */
  const HistoryLimit: nat := 12

  /** `s || fallback` on a possibly missing string: missing or empty gives the fallback. */
  function OrFallback(s: Option<string>, fallback: string): (r: string)
    ensures s.Some? && s.value != "" ==> r == s.value
    ensures s.None? || s.value == "" ==> r == fallback
  {
    if s.Some? && s.value != "" then s.value else fallback
  }

  /** One holding row as a table position. */
  function ToPosition(h: HoldingRow): (p: Position)
    ensures p.id == h.id && p.quantity == h.totalQuantity && p.avgPurchasePrice == h.averageCost
    ensures h.asset.None? ==> p.ticker == "N/A" && p.name == "Sin nombre" && p.currentPrice == 0.0
    ensures h.asset.Some? ==> p.ticker == OrFallback(h.asset.value.symbol, "N/A")
    ensures h.asset.Some? ==> p.name == OrFallback(h.asset.value.name, "Sin nombre")
    ensures h.asset.Some? && h.asset.value.currentPrice.Some? ==> p.currentPrice == h.asset.value.currentPrice.value
    ensures h.asset.Some? && h.asset.value.currentPrice.None? ==> p.currentPrice == 0.0
  {
    match h.asset
    case None => Position(h.id, "N/A", "Sin nombre", h.totalQuantity, h.averageCost, 0.0)
    case Some(a) =>
      Position(h.id, OrFallback(a.symbol, "N/A"), OrFallback(a.name, "Sin nombre"),
               h.totalQuantity, h.averageCost, a.currentPrice.GetOr(0.0))
  }

  /** `(holdings || []).map(...)`: one position per holding, in order; `null` gives none. */
  function ToPositions(holdings: Option<seq<HoldingRow>>): (ps: seq<Position>)
    ensures holdings.None? ==> ps == []
    ensures holdings.Some? ==> |ps| == |holdings.value|
    ensures holdings.Some? ==> forall i :: 0 <= i < |ps| ==> ps[i] == ToPosition(holdings.value[i])
    ensures holdings.Some? ==> forall i :: 0 <= i < |ps| ==> ps[i].id == holdings.value[i].id
  {
    match holdings
    case None => []
    case Some(hs) => seq(|hs|, i requires 0 <= i < |hs| => ToPosition(hs[i]))
  }

  /** Market value of the positions: the sum of quantity times current price, left to right. */
  function TotalValue(ps: seq<Position>): real
  {
    if ps == [] then 0.0
    else TotalValue(ps[..|ps| - 1]) + ps[|ps| - 1].quantity * ps[|ps| - 1].currentPrice
  }

  /** Invested cost of the positions: the sum of quantity times average cost, left to right. */
  function TotalInvested(ps: seq<Position>): real
  {
    if ps == [] then 0.0
    else TotalInvested(ps[..|ps| - 1]) + ps[|ps| - 1].quantity * ps[|ps| - 1].avgPurchasePrice
  }

  /** P&L as a percentage of the invested cost, 0 when nothing positive was invested. */
  function GuardedPercentage(pnl: real, invested: real): (r: real)
    ensures invested > 0.0 ==> r * invested == pnl * 100.0
    ensures invested <= 0.0 ==> r == 0.0
  {
    if invested > 0.0 then pnl / invested * 100.0 else 0.0
  }

  /** The KPI computation: a loop accumulating market value and invested cost, then the
      derived figures. `annualizedReturn` is the P&L percentage itself. */
  method ComputeKpis(ps: seq<Position>) returns (k: Kpis)
    ensures k.totalValue == TotalValue(ps)
    ensures k.pnl == TotalValue(ps) - TotalInvested(ps)
    ensures k.pnlPercentage == GuardedPercentage(k.pnl, TotalInvested(ps))
    ensures k.annualizedReturn == k.pnlPercentage
  {
    var totalValue := 0.0;
    var totalInvested := 0.0;
    for i := 0 to |ps|
      invariant totalValue == TotalValue(ps[..i])
      invariant totalInvested == TotalInvested(ps[..i])
    {
      assert ps[..i + 1][..i] == ps[..i];
      totalValue := totalValue + ps[i].quantity * ps[i].currentPrice;
      totalInvested := totalInvested + ps[i].quantity * ps[i].avgPurchasePrice;
    }
    assert ps[..|ps|] == ps;
    var pnl := totalValue - totalInvested;
    var pnlPercentage := if totalInvested > 0.0 then pnl / totalInvested * 100.0 else 0.0;
    k := Kpis(totalValue, pnl, pnlPercentage, pnlPercentage);
  }

  /** The rows the history query returns: the first `HistoryLimit` rows of the table, which the
      store hands over ordered by `recorded_at` ascending. */
  function LimitHistory(table: seq<HistoryRow>): (rows: seq<HistoryRow>)
    ensures |rows| <= HistoryLimit
    ensures |rows| == if |table| < HistoryLimit then |table| else HistoryLimit
    ensures rows <= table
  {
    if |table| <= HistoryLimit then table else table[..HistoryLimit]
  }

  /** The history query's `data` as the page reads it: an error leaves it `null`. */
  function HistoryData(q: Query<seq<HistoryRow>>): (r: Option<seq<HistoryRow>>)
    ensures q.QueryError? ==> r.None?
    ensures q.QueryData? && q.data.None? ==> r.None?
    ensures q.QueryData? && q.data.Some? ==> r == Some(LimitHistory(q.data.value))
  {
    match q
    case QueryError(_) => None
    case QueryData(d) => if d.Some? then Some(LimitHistory(d.value)) else None
  }

  /** One chart point per history row, in the same order. */
  function ToChart(history: seq<HistoryRow>): (points: seq<ChartPoint>)
    ensures |points| == |history|
    ensures forall i :: 0 <= i < |history| ==>
      points[i].date == history[i].recordedAt && points[i].value == history[i].totalValue
  {
    seq(|history|, i requires 0 <= i < |history| => ChartPoint(history[i].recordedAt, history[i].totalValue))
  }

  /** The page's state: what the table, the KPI cards and the chart show, and the spinner. */
  class Dashboard {
    var positions: seq<Position>
    var kpiData: Kpis
    var chartData: seq<ChartPoint>
    var loading: bool

    /** The page before its data arrives. */
    constructor ()
      ensures positions == [] && kpiData == NoKpis && chartData == [] && loading
    {
      positions := [];
      kpiData := NoKpis;
      chartData := [];
      loading := true;
    }

    /** `loadData`, given the replies of the holdings query and of the history query. On a
        holdings error nothing but the spinner changes. Otherwise the positions and KPIs are
        replaced, and the chart too when the history is not empty. */
    method LoadData(holdings: Query<seq<HoldingRow>>, history: Query<seq<HistoryRow>>)
      modifies this
      ensures !loading
      ensures holdings.QueryError? ==>
        positions == old(positions) && kpiData == old(kpiData) && chartData == old(chartData)
      ensures holdings.QueryData? ==> positions == ToPositions(holdings.data)
      ensures holdings.QueryData? ==>
        kpiData.totalValue == TotalValue(positions) &&
        kpiData.pnl == TotalValue(positions) - TotalInvested(positions) &&
        kpiData.pnlPercentage == GuardedPercentage(kpiData.pnl, TotalInvested(positions)) &&
        kpiData.annualizedReturn == kpiData.pnlPercentage
      ensures holdings.QueryData? ==>
        var h := HistoryData(history);
        chartData == if h.Some? && |h.value| > 0 then ToChart(h.value) else old(chartData)
    {
      if holdings.QueryError? {
        loading := false;
        return;
      }
      var ps := ToPositions(holdings.data);
      positions := ps;
      kpiData := ComputeKpis(ps);
      var h := HistoryData(history);
      if h.Some? && |h.value| > 0 {
        chartData := ToChart(h.value);
      }
      loading := false;
    }
  }

  /** Loading the initial page with a holdings error leaves it empty with zero KPIs. */
  method LoadAfterHoldingsError(message: string, history: Query<seq<HistoryRow>>) returns (d: Dashboard)
    ensures d.positions == [] && d.kpiData == NoKpis && d.chartData == [] && !d.loading
  {
    d := new Dashboard();
    d.LoadData(QueryError(message), history);
  }

  /** The chart never holds more points than the history query's limit. */
  lemma ChartWithinLimit(q: Query<seq<HistoryRow>>)
    requires HistoryData(q).Some?
    ensures |ToChart(HistoryData(q).value)| <= HistoryLimit
  {
  }

  /** With no positions every KPI is zero. */
  lemma EmptyPortfolio()
    ensures TotalValue([]) == 0.0 && TotalInvested([]) == 0.0
    ensures GuardedPercentage(TotalValue([]) - TotalInvested([]), TotalInvested([])) == 0.0
  {
  }

  /** The portfolio P&L equals the sum of the table rows' P&L. */
  lemma {:induction false} PnlIsSumOfRows(ps: seq<Position>)
    ensures TotalValue(ps) - TotalInvested(ps) == SumRowPnl(ps)
  {
    if ps != [] {
      var n := |ps| - 1;
      PnlIsSumOfRows(ps[..n]);
      var p := ps[n];
      assert (p.currentPrice - p.avgPurchasePrice) * p.quantity
          == p.quantity * p.currentPrice - p.quantity * p.avgPurchasePrice;
    }
  }

  /** For a single long position bought at a positive price, the page's guarded percentage and
      the table's unguarded one agree. */
  lemma SinglePositionPercentagesAgree(p: Position)
    requires p.quantity > 0.0 && p.avgPurchasePrice > 0.0
    ensures RowPnlPercentage(p) == Some(GuardedPercentage(TotalValue([p]) - TotalInvested([p]), TotalInvested([p])))
  {
    assert [p][..0] == [];
    var inv := p.quantity * p.avgPurchasePrice;
    assert TotalInvested([p]) == inv;
    assert TotalValue([p]) == p.quantity * p.currentPrice;
    var g := GuardedPercentage(TotalValue([p]) - TotalInvested([p]), inv);
    var r := RowPnlPercentage(p).value;
    assert inv > 0.0;
    assert g * inv == (p.quantity * p.currentPrice - inv) * 100.0;
    assert r * p.avgPurchasePrice == (p.currentPrice - p.avgPurchasePrice) * 100.0;
    assert r * inv == p.quantity * ((p.currentPrice - p.avgPurchasePrice) * 100.0);
    assert g * inv == r * inv;
  }

  /** Where the average cost is 0 the two formulas part: the page shows 0 %, the table has no
      finite percentage. */
  lemma ZeroCostPercentagesDiffer(p: Position)
    requires p.avgPurchasePrice == 0.0
    ensures GuardedPercentage(TotalValue([p]) - TotalInvested([p]), TotalInvested([p])) == 0.0
    ensures RowPnlPercentage(p).None?
  {
    assert [p][..0] == [];
  }

  /** The two-position portfolio 150 x 142.50 -> 178.25 and 45 x 98.75 -> 141.80. */
  lemma TwoPositionExample()
    ensures var ps := [Position("a", "A", "A", 150.0, 142.50, 178.25), Position("b", "B", "B", 45.0, 98.75, 141.80)];
      TotalValue(ps) == 33118.5 && TotalInvested(ps) == 25818.75 && TotalValue(ps) - TotalInvested(ps) == 7299.75
  {
    var ps := [Position("a", "A", "A", 150.0, 142.50, 178.25), Position("b", "B", "B", 45.0, 98.75, 141.80)];
    assert ps[..1] == [ps[0]];
    assert ps[..1][..0] == [];
  }
}
