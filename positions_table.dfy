/** The positions table: the `Position` view model and the per-row profit and loss. */
module PositionsTable {
  import opened Common

  /** One line of the table, joined from a holding and its asset. Amounts are exact reals. */
  datatype Position = Position(
    id: string,
    ticker: string,
    name: string,
    quantity: real,
    avgPurchasePrice: real,
    currentPrice: real)

  /** What the table renders for one position: its React key, the labels, the P&L figures and
      the sign prefix shown in front of both figures. */
  datatype Row = Row(
    key: string,
    ticker: string,
    name: string,
    pnl: real,
    pnlPercentage: Option<real>,
    isPositive: bool,
    prefix: string)

  /** Absolute profit or loss of one position. */
  function RowPnl(p: Position): (r: real)
    ensures p.currentPrice == p.avgPurchasePrice ==> r == 0.0
    ensures p.quantity == 0.0 ==> r == 0.0
  {
    (p.currentPrice - p.avgPurchasePrice) * p.quantity
  }

  /** Percentage profit or loss of one position. The table divides by the average cost without a
      guard; where that cost is 0 the browser gets an infinity or NaN, which is `None` here. */
  function RowPnlPercentage(p: Position): (r: Option<real>)
    ensures r.Some? <==> p.avgPurchasePrice != 0.0
    ensures r.Some? ==> r.value * p.avgPurchasePrice == (p.currentPrice - p.avgPurchasePrice) * 100.0
  {
    if p.avgPurchasePrice == 0.0 then None
    else Some((p.currentPrice - p.avgPurchasePrice) / p.avgPurchasePrice * 100.0)
  }

  /** The row rendered for one position. */
  function RenderRow(p: Position): (row: Row)
    ensures row.key == p.id && row.ticker == p.ticker && row.name == p.name
    ensures row.pnl == RowPnl(p) && row.pnlPercentage == RowPnlPercentage(p)
    ensures row.isPositive <==> row.pnl >= 0.0
    ensures row.prefix == "+" <==> row.isPositive
    ensures row.prefix == "" <==> !row.isPositive
  {
    var pnl := RowPnl(p);
    var positive := pnl >= 0.0;
    Row(p.id, p.ticker, p.name, pnl, RowPnlPercentage(p), positive, if positive then "+" else "")
  }

  /** The table body: `positions.map(...)`. */
  function Rows(ps: seq<Position>): (rows: seq<Row>)
    ensures |rows| == |ps|
    ensures forall i :: 0 <= i < |ps| ==> rows[i] == RenderRow(ps[i])
    ensures forall i :: 0 <= i < |ps| ==> rows[i].key == ps[i].id
  {
    seq(|ps|, i requires 0 <= i < |ps| => RenderRow(ps[i]))
  }

  /** The percentage does not depend on how many units are held. */
  lemma PercentageIgnoresQuantity(p: Position, q: real)
    ensures RowPnlPercentage(p.(quantity := q)) == RowPnlPercentage(p)
  {
  }

  /** Zero counts as positive: a position at cost shows "+". */
  lemma AtCostShowsPlus(p: Position)
    requires p.currentPrice == p.avgPurchasePrice
    ensures RenderRow(p).pnl == 0.0 && RenderRow(p).isPositive && RenderRow(p).prefix == "+"
  {
  }

  /** For a long position bought at a positive price, both figures have the same sign. */
  lemma SameSign(p: Position)
    requires p.quantity > 0.0 && p.avgPurchasePrice > 0.0
    ensures RowPnlPercentage(p).Some?
    ensures RowPnl(p) >= 0.0 <==> RowPnlPercentage(p).value >= 0.0
    ensures RowPnl(p) > 0.0 <==> RowPnlPercentage(p).value > 0.0
  {
    var d := p.currentPrice - p.avgPurchasePrice;
    var pct := RowPnlPercentage(p).value;
    assert pct * p.avgPurchasePrice == d * 100.0;
    if d > 0.0 {
      assert d * p.quantity > 0.0;
      assert pct > 0.0;
    } else if d < 0.0 {
      assert d * p.quantity < 0.0;
      assert pct < 0.0;
    } else {
      assert pct == 0.0;
    }
  }

  /** Sum of the rows' absolute P&L, row by row. */
  function SumRowPnl(ps: seq<Position>): real
  {
    if ps == [] then 0.0 else SumRowPnl(ps[..|ps| - 1]) + RowPnl(ps[|ps| - 1])
  }
}
