# Portfolio dashboard — a Dafny model of its valuation, price refresh and forms

The repository is a personal investment dashboard. It lists a user's holdings, computes profit-and-loss
KPIs, converts Yahoo Finance USD quotes into Argentine pesos at the "dólar blue" sell rate, and offers two
dialogs: one adds an asset, one registers a buy or sell operation. This project models that logic:

- `common.dfy` (module `Common`): `Option` for JavaScript's `T | null`, `Result` for a store reply, and the
  abstract `parseFloat` (`Parser`).
- `positions_table.dfy` (module `PositionsTable`): the `Position` view model and the per-row P&L, P&L %
  and sign.
- `valuation.dfy` (module `Valuation`): the dashboard page. It covers the mapping from holding rows to
  positions with placeholders, the KPI loop with its derived figures, the history-to-chart mapping, and
  the page's `loadData` as a class whose fields are the page state.
- `prices.dfy` (module `Prices`): the two quote wrappers and their null rules, the USD-to-ARS
  combination, and the `updateAllPrices` loop. The remote services are a `Network` object. Its
  `respond` oracle gives the reply to the n-th request, and it logs every request issued.
- `add_asset_modal.dfy` (module `AddAsset`): the three dependent inserts of the add-asset dialog. It runs
  against a `Store` whose `rejects` oracle can refuse any write. The module also holds the records those
  inserts write and the dialog state.
- `operation_modal.dfy` (module `Operation`): the operation form, its validity, the total box, the
  submit label, the field handlers and the reset on submit.

Amounts are `real`, so every sum and product is exact. The remote quote services and the hosted store
are parameters: functions of the request number, or of the write number. The model cannot call them.

Three behaviours of the code that a reader might not expect, and that the model keeps:

- The history query orders by `recorded_at` ascending and then limits to 12 rows, so the chart shows the
  12 earliest points (app/page.tsx:71-75). `Valuation.LimitHistory` takes the first 12 rows.
- `updateAllPrices` writes nothing to the store; it only returns a map from symbol to ARS price
  (lib/prices.ts:57-67). The model returns that map, with its keys in insertion order as the `Map`
  iterates them.
- The row percentage has no divide-by-zero guard (components/dashboard/positions-table.tsx:76-79). In the
  browser an average cost of 0 gives an infinity or `NaN`, written `None` here. The row function stays
  total, and `Valuation.ZeroCostPercentagesDiffer` states where it departs from the guarded KPI formula.

## Model

| member | source | states |
|---|---|---|
| `PositionsTable.RowPnl` | components/dashboard/positions-table.tsx:73-75 | a row's P&L is 0 when the current price equals the average cost, and 0 for quantity 0 |
| `PositionsTable.RowPnlPercentage` | components/dashboard/positions-table.tsx:76-79 | a finite percentage exists exactly when the average cost is non-zero; times the cost it is 100·(current − cost) |
| `PositionsTable.RenderRow` | components/dashboard/positions-table.tsx:72-122 | a row carries the position's id as key, its labels and both P&L figures; `isPositive` holds iff pnl ≥ 0; the "+" prefix is shown iff `isPositive`, otherwise the prefix is empty |
| `PositionsTable.Rows` | components/dashboard/positions-table.tsx:72-84 | exactly one row per position, in input order, each keyed by its position's id |
| `PositionsTable.PercentageIgnoresQuantity` | components/dashboard/positions-table.tsx:76-79 | the row percentage does not depend on the quantity |
| `PositionsTable.AtCostShowsPlus` | components/dashboard/positions-table.tsx:80-122 | a position at cost has pnl 0, counts as positive and shows "+" |
| `PositionsTable.SameSign` | components/dashboard/positions-table.tsx:73-80 | for quantity > 0 and cost > 0 the two figures are both ≥ 0 or both < 0, and both > 0 or both ≤ 0 |
| `Valuation.OrFallback` | app/page.tsx:42-43 | a present non-empty string is kept; a missing or empty one becomes the placeholder |
| `Valuation.ToPosition` | app/page.tsx:41-46 | id, quantity and average cost are copied; a missing asset, symbol or name gives "N/A" / "Sin nombre"; a missing or unreadable price gives 0 |
| `Valuation.ToPositions` | app/page.tsx:40-47 | a `null` result gives no positions; otherwise one position per holding, same order, same id |
| `Valuation.GuardedPercentage` | app/page.tsx:61 | with invested > 0 the percentage times invested is 100·pnl; with invested ≤ 0 it is 0 whatever pnl is |
| `Valuation.ComputeKpis` | app/page.tsx:52-68 | the loop's accumulators equal Σ quantity·current price and Σ quantity·average cost; pnl is their difference, the percentage is guarded, and `annualizedReturn` equals the percentage |
| `Valuation.LimitHistory` | app/page.tsx:71-75 | the query returns at most 12 rows: the first min(12, n) rows of the ordered table |
| `Valuation.HistoryData` | app/page.tsx:71-77 | a failed history query leaves the data `null`; otherwise the data is the limited rows |
| `Valuation.ToChart` | app/page.tsx:78-81 | one chart point per history row, same order, with the row's time and total value |
| `Valuation.Dashboard.constructor` | app/page.tsx:12-20 | the page starts with no positions, zero KPIs, an empty chart and the spinner on |
| `Valuation.Dashboard.LoadData` | app/page.tsx:24-90 | on a holdings error only the spinner changes; otherwise the positions are the mapped holdings and the KPIs are those of `ComputeKpis`; the chart is replaced only by a non-empty history; the spinner is off on every path |
| `Valuation.LoadAfterHoldingsError` | app/page.tsx:12-37 | a first load that meets a holdings error leaves the page empty with zero KPIs and the spinner off |
| `Valuation.ChartWithinLimit` | app/page.tsx:71-82 | the chart never holds more than 12 points |
| `Valuation.EmptyPortfolio` | app/page.tsx:52-61 | with no positions, value, invested, pnl and percentage are all 0 |
| `Valuation.PnlIsSumOfRows` | app/page.tsx:52-60 | the page's pnl equals the sum of the table rows' pnl |
| `Valuation.SinglePositionPercentagesAgree` | components/dashboard/positions-table.tsx:76-79 | for one position with quantity > 0 and cost > 0, the unguarded row percentage equals the page's guarded one |
| `Valuation.ZeroCostPercentagesDiffer` | components/dashboard/positions-table.tsx:76-79 | at average cost 0 the page shows 0 % while the row has no finite percentage |
| `Valuation.TwoPositionExample` | app/page.tsx:52-60 | 150 × 142.50 → 178.25 and 45 × 98.75 → 141.80 give value 33118.5, invested 25818.75, pnl 7299.75 |
| `Prices.ValueOrNull` | lib/prices.ts:9-18 | a throw or a non-ok status gives `null`, and so does a missing or zero number; otherwise the number |
| `Prices.ToArs` | lib/prices.ts:47 | an ARS price exists iff both the USD price and the rate are present and non-zero, and it is their product; no rate means no price |
| `Prices.CombineArs` | lib/prices.ts:42-53 | the result hands back both fetched values unchanged next to the ARS price, which follows the rule of `ToArs` |
| `Prices.QuoteRequests` | lib/prices.ts:61-62 | one quote request per symbol, in input order, and no rate request among them |
| `Prices.ArsPrices` | lib/prices.ts:61-63 | one ARS price per symbol |
| `Prices.ArsPricesAt` | lib/prices.ts:61-63 | the i-th symbol's ARS price comes from the reply to request `start + i` for that symbol, converted at the one rate |
| `Prices.Network.Fetch` | lib/prices.ts:4-7 | one GET: logs the request and returns what the service answers to that request number |
| `Prices.GetStockPriceUSD` | lib/prices.ts:2-18 | exactly one quote request; the result follows the null rules for the reply it gets |
| `Prices.GetDolarBlue` | lib/prices.ts:22-33 | exactly one rate request; the result follows the null rules for the reply it gets |
| `Prices.GetStockPriceARS` | lib/prices.ts:37-53 | one quote request and one rate request; the result combines the two replies as `CombineArs` does |
| `Prices.Truthy` | lib/prices.ts:14 | `null` and 0 are falsy, every other number is truthy, as JavaScript's `||` and `&&` read a `number \| null` |
| `Prices.MapSet` | lib/prices.ts:59-64 | `Map.set`: the key takes the new value; a new key is appended to the iteration order, an existing key keeps its place |
| `Prices.Tabulate` | lib/prices.ts:59-65 | the map built by setting each key in turn holds the last key with the last value |
| `Prices.FirstIndex` | lib/prices.ts:61 | the position of a symbol's first occurrence: the symbol is there and nowhere before it |
| `Prices.UpdateAllPrices` | lib/prices.ts:57-67 | the rate is requested once, before one quote request per symbol in input order; the result is the `Map` obtained by `set`ting each symbol's ARS price in input order |
| `Prices.RefreshStep` | lib/prices.ts:61-65 | one turn of the loop adds one quote request and one map entry for the current symbol |
| `Prices.TabulateKeys` | lib/prices.ts:59-65 | the result map's keys are exactly the set of input symbols |
| `Prices.TabulateLastWins` | lib/prices.ts:61-65 | for a repeated symbol the value written last is kept |
| `Prices.TabulateValueFromLast` | lib/prices.ts:61-65 | every value in the map is the one written at its key's last occurrence |
| `Prices.RefreshResult` | lib/prices.ts:57-67 | after a refresh: keys = the symbols; a symbol's value is the ARS price of its last occurrence's quote |
| `Prices.TabulateOrderKeys` | lib/prices.ts:59-65 | the map's iteration order holds exactly its keys, each one of the inserted keys |
| `Prices.TabulateOrder` | lib/prices.ts:59-65 | the map iterates its keys without repetition, in the order of their first insertion |
| `Prices.OrderStep` | lib/prices.ts:64 | one `set` keeps the iteration order free of repetitions and sorted by first insertion |
| `Prices.RefreshOrder` | lib/prices.ts:57-67 | the refresh result iterates each distinct symbol exactly once, in the order it first appears in the input |
| `Prices.Network.constructor` | lib/prices.ts:4-7 | the services answer by the given oracle and no request has been issued yet |
| `Prices.NoRateAllNull` | lib/prices.ts:58-63 | without a rate every entry of the result is `null` |
| `AddAsset.UpperCaseHasNoLowerCase` | components/dashboard/add-asset-modal.tsx:37 | the stored symbol has the input's length, with every ASCII lower-case letter capitalised and every other character kept |
| `AddAsset.UpperChar` | components/dashboard/add-asset-modal.tsx:37 | an upper-cased character is never an ASCII lower-case letter; a lower-case letter moves to its capital, 32 code points down, and any other character is kept |
| `AddAsset.ToUpperCase` | components/dashboard/add-asset-modal.tsx:37 | upper-casing keeps the symbol's length |
| `AddAsset.TypeName` | components/dashboard/add-asset-modal.tsx:130-133 | the stored type is one of "crypto", "stock", "etf", "bond" |
| `AddAsset.TypeNamesDistinct` | components/dashboard/add-asset-modal.tsx:130-133 | two choices are stored as the same string only when they are the same choice |
| `AddAsset.NewAsset` | components/dashboard/add-asset-modal.tsx:36-42 | the asset row has the upper-cased symbol, the form's name and type, the parsed price, and currency "USD" |
| `AddAsset.NewHolding` | components/dashboard/add-asset-modal.tsx:58-64 | the holding references the user and the asset, and its `total_invested` is quantity × average cost |
| `AddAsset.BuyTransaction` | components/dashboard/add-asset-modal.tsx:73-80 | the transaction is a "buy" of the quantity at the average cost, for total quantity × unit price |
| `AddAsset.HoldingMatchesTransaction` | components/dashboard/add-asset-modal.tsx:58-80 | holding and transaction agree on user, asset, quantity, unit price and total |
| `AddAsset.Store.InsertAsset` | components/dashboard/add-asset-modal.tsx:34-44 | a refused insert returns the error and changes nothing; an accepted one appends the row under the next id and returns it |
| `AddAsset.Store.InsertHolding` | components/dashboard/add-asset-modal.tsx:56-64 | appends the holding unless the store refuses that write; other tables are untouched |
| `AddAsset.Store.InsertTransaction` | components/dashboard/add-asset-modal.tsx:73-80 | appends the transaction unless the store refuses that write; other tables are untouched |
| `AddAsset.Store.constructor` | components/dashboard/add-asset-modal.tsx:34-80 | the store starts with empty asset, holding and transaction tables, no write attempted, and refuses writes by the given oracle |
| `AddAsset.AddAssetModal.constructor` | components/dashboard/add-asset-modal.tsx:17-26 | the dialog starts closed and idle, with the empty form of type "stock" |
| `AddAsset.AddAssetModal.HandleSubmit` | components/dashboard/add-asset-modal.tsx:28-100 | a refused asset insert writes nothing else, alerts, and keeps the form and callback count; a refused holding insert writes no transaction and does not call back; otherwise holding and transaction reference the new asset and the user, the transaction result is ignored, the form resets, the dialog closes and `onAssetAdded` runs once; `loading` is off on every path |
| `Operation.IsFormValid` | components/dashboard/operation-modal.tsx:72-73 | a valid form has a positive total and is never the reset form |
| `Operation.OperationTotal` | components/dashboard/operation-modal.tsx:203-211 | the total is shown exactly when the form is valid (asset chosen, quantity > 0, price > 0), and it is quantity × price |
| `Operation.SubmitLabel` | components/dashboard/operation-modal.tsx:233 | the label is "Comprar" iff the type is buy and "Vender" iff it is sell |
| `Operation.LabelsDiffer` | components/dashboard/operation-modal.tsx:233 | the two submit labels are different strings |
| `Operation.NumberOrZero` | components/dashboard/operation-modal.tsx:175 | unparsable input stores 0; a parsed number is stored as it is, so 0 stays 0 |
| `Operation.ResetFormIsInvalid` | components/dashboard/operation-modal.tsx:64-73 | the reset form is not valid and shows no total |
| `Operation.OperationModal.constructor` | components/dashboard/operation-modal.tsx:50-56 | the dialog starts closed with the empty form of type buy |
| `Operation.OperationModal.HandleSubmit` | components/dashboard/operation-modal.tsx:58-70 | `onSubmit`, if given, receives the form as it was before the reset; then the dialog is closed and the form is empty, hence invalid |
| `Operation.OperationModal.SelectAsset` | components/dashboard/operation-modal.tsx:96-98 | only the asset field changes |
| `Operation.OperationModal.SelectType` | components/dashboard/operation-modal.tsx:126-128 | only the type field changes |
| `Operation.OperationModal.ChangeQuantity` | components/dashboard/operation-modal.tsx:172-177 | only the quantity changes, to the parsed number or 0 |
| `Operation.OperationModal.ChangePrice` | components/dashboard/operation-modal.tsx:193-198 | only the price changes, to the parsed number or 0 |

## Left out

- Network and store I/O: the Yahoo Finance and dolarapi `fetch` calls and every hosted-store query and insert are oracles (`Network.respond`, `Store.rejects`), not real calls. URLs, the `revalidate: 300` cache hint and console logging are not modelled.
- Concurrency: `Promise.all` in `getStockPriceARS` is modelled as two requests issued in array order and combined by position. Completion order has no effect on the result.
- Floating point: amounts are exact reals. IEEE-754 rounding, `NaN` propagation and infinities are not modelled. The one place where the code yields a non-finite number, the unguarded row percentage, is `None`.
- `parseFloat` and `Number` conversion are abstract; only the "unparsable or 0 becomes 0" and "missing becomes absent" rules are modelled. `AddAsset.AddAssetModal.HandleSubmit` requires its three numeric fields to parse, because the inputs are required number fields that the browser will not submit otherwise.
- The history query's ordering by `recorded_at` is done by the store. The model receives the table in that order and applies only the limit of 12.
- Exceptions thrown by the store client inside `loadData` and `handleSubmit` (their `catch` branches, with the generic alert) are not modelled; those calls report failures through their error field.
- `AddAsset.UpperCaseHasNoLowerCase`: `toUpperCase` is modelled for ASCII letters only; full Unicode case mapping, which can change a string's length, is left out.
- `AddAsset.UpperChar`, `AddAsset.ToUpperCase`: the same ASCII-only restriction applies.
- Display formatting: `Intl.NumberFormat`, `toFixed`, the month label from `toLocaleDateString` (a chart point keeps the raw timestamp), colours and icons.
- The KPI cards, the chart, the header (whose operation callback only logs) and the cash-balance card are presentation or single-row glue and are not part of this model.
- `annualizedReturn` is the P&L percentage itself, as in the code. No time-weighted return is invented.
