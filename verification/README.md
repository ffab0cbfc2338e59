# Portfolio analytics engine — a Dafny model

This project models the computational core of a portfolio-analytics application for Indian
equities, and proves properties of that model. The core has three parts.

- **The engine** (`process_portfolio_data`). It filters the transaction log by a symbol selection.
  It restricts the price calendar to the days from the first selected transaction onwards. It
  replays buys and sells day by day into per-symbol unit positions, an invested-capital balance,
  a dated cash-flow list and a "phantom" benchmark position: every buy also buys the same cash
  amount of the NIFTY 50 index. It values the portfolio and the phantom every day and derives
  profit-% series, the drawdown series, and the headline metrics of the last day.
- **The calculator tool.** It computes P&L, sector and asset-type exposure in percent, rolling
  returns, P/E analysis against a market P/E, the argument guards of XIRR and CAGR, and the
  cash-flow list the tool hands to XIRR.
- **Input helpers.** These are the portfolio-file schema check, the `TICKER.EXCHANGE` symbol
  parser, and the choice of Indian currency unit (plain, lakh, crore).

Numbers are exact reals and dates are integer day numbers. Python dictionaries keep insertion
order, so the exposure maps are modelled as ordered lists of key/value buckets. An exception the
source raises is a `Failure`/`Failed` value naming its cause. Floating-point division by zero,
which would put an infinity or NaN into the engine's output, is reported as `Failed(NonFinite)`.

Modules, in dependency order:

- `Results`: option and result types.
- `Sums`: sums, minimum and maximum, mean, the percentage-change pair `Level`/`Change`, and the
  running maximum.
- `Ledger`: transactions, holdings and the selection filter.
- `Reconstruction`: the price panel, the per-transaction effects and the replay.
- `ReconstructionFacts`: closed forms of the replayed state.
- `Drawdown`: the drawdown series and its minimum.
- `Analytics`: valuation, profit-%, metrics and the engine.
- `Allocation`: the allocation table.
- `Calculator`: the calculator tool.
- `Schema`, `Symbols`, `Currency`: the input helpers.

`Sums.Level(base, pct) = base + base * pct / 100` is the value reached from `base` after a
`pct` percent change. Most percentage results are specified as its inverse: the returned
percentage is the one that takes the base to the observed value.

## Model

| member | source | states |
|---|---|---|
| Ledger.FilterLog | src/utils/analytics.py:78-79 | A transaction survives exactly when its symbol is selected. No selection, an empty list, or a list containing "ALL" selects every symbol. |
| Ledger.FilterKeepsAll | src/utils/analytics.py:78-79 | A selection that keeps everything returns the log unchanged, order included. |
| Reconstruction.OnDateAppend | src/utils/analytics.py:105 | One transaction is kept exactly when it has that date. The transactions of a concatenation on a date are those of each part, in order. |
| Ledger.FilterAppend | src/utils/analytics.py:79 | Filtering distributes over concatenation, so the relative order of surviving transactions is kept. |
| Reconstruction.From | src/utils/analytics.py:86-87 | The restricted panel is a suffix of the calendar with the same columns, and its prices are the original panel's prices for those days. |
| Reconstruction.FromKeepsLaterDates | src/utils/analytics.py:86-87 | The restricted calendar holds exactly the panel's dates on or after the first selected transaction. |
| ReconstructionFacts.ReplayMatches | src/utils/analytics.py:103-138 | After the day-by-day replay, units, phantom, invested balance and cash flows equal the cumulative reference sums over the calendar days so far. |
| ReconstructionFacts.CumIsTotalIn | src/utils/analytics.py:103-105 | Summing day by day equals summing over the transactions dated on calendar days up to that day. A transaction dated on a non-trading day is therefore never applied. |
| ReconstructionFacts.ForwardFill | src/utils/analytics.py:103-129 | A symbol's units on day i are the signed quantities (+buy, -sell) of its transactions dated on calendar days up to i. They change from day i-1 only by that day's transactions of that symbol. |
| ReconstructionFacts.InvestedRunningSum | src/utils/analytics.py:112-138 | Invested capital on day i is the sum of +(qty*price+charges) for buys and -(qty*price+charges) for sells up to day i. The final running balance equals the last day's entry. |
| ReconstructionFacts.PhantomBuysOnly | src/utils/analytics.py:119-122 | The phantom moves from day i-1 to day i only by that day's buys, each adding amount / benchmark price. With no buy that day it is unchanged. |
| ReconstructionFacts.PhantomNonDecreasing | src/utils/analytics.py:119-136 | With non-negative buy amounts and positive benchmark prices, the phantom series never decreases, sells included. |
| ReconstructionFacts.FlowsFollowCalendar | src/utils/analytics.py:125-136 | There is one cash flow per replayed buy or sell, dated on its calendar day and in calendar order. The flows sum to minus the final invested balance. |
| Analytics.ValuationFromLog | src/utils/analytics.py:143-146 | Day i's portfolio value is the sum over non-benchmark columns of the units held then times that day's price. The benchmark value is the phantom units times the benchmark price. |
| Analytics.MinDate | src/utils/analytics.py:86 | The start date is the date of some selected transaction and no selected transaction is earlier. |
| Analytics.ProfitPct | src/utils/analytics.py:155-156 | With non-zero invested capital, the profit-% is the percentage that takes invested to value, and its sign follows value against invested (reversed when invested is negative). 0/0 gives 0. |
| Analytics.ProfitSeries | src/utils/analytics.py:155-156 | Each day's profit-% takes that day's invested capital to that day's value. A day with nothing invested gets 0. |
| Analytics.ReturnPct | src/utils/analytics.py:181 | With positive invested capital, the headline return is the percentage that takes invested to current value, non-negative exactly when value ≥ invested. Otherwise it is 0. |
| Analytics.Assemble | src/utils/analytics.py:149-187 | The assembled result is coherent: all series are calendar-aligned, and each profit-% entry measures that day's value against that day's capital. The metrics are the last day's figures. Each drawdown entry measures that day's portfolio value against its running peak, and the maximum drawdown is the lowest entry. The drawdown series and maximum are those of the portfolio values. |
| Analytics.Analyse | src/utils/analytics.py:103-187 | On a non-empty calendar the analysis succeeds exactly when every buy day has a non-zero benchmark price and the replayed series give finite profit percentages and drawdowns. Any failure is the non-finite error, and a success is coherent over the whole calendar. |
| Analytics.Process | src/utils/analytics.py:64-187 | An empty log fails. A selection keeping nothing gives no data. A missing NIFTY_50 column fails before an empty calendar does, and the calendar is empty exactly when every panel date precedes the first selected transaction. The engine completes exactly when the selection keeps a transaction, the benchmark column exists, the restricted calendar is non-empty and the analysis over it is defined. A completed analysis is coherent and covers exactly the panel dates from that transaction on. |
| Analytics.OneBuyCompletes | src/utils/analytics.py:64-187 | One buy of one unit at 10 on a one-day calendar with the benchmark at 100 completes, so the success path is reachable. |
| Analytics.AnalyseDaily | src/utils/analytics.py:103-146 | Every daily entry of a completed analysis has a closed form over the log: invested capital, portfolio value and benchmark value. |
| Analytics.AnalyseTotals | src/utils/analytics.py:124-151 | Total invested is the capital sum over the calendar. There is one cash flow per replayed trade, and the flows sum to minus the total invested. |
| Analytics.ProcessClosedForm | src/utils/analytics.py:78-151 | A completed engine run equals the closed forms of the selected log over the calendar restricted to its first date. |
| Analytics.SelectAllIsNoFilter | src/utils/analytics.py:78 | Any selection that keeps everything gives the same outcome as no selection. |
| Sums.RunningMax | src/utils/analytics.py:37 | The running maximum has one entry per day and bounds every earlier value. |
| Sums.RunningMaxAttained | src/utils/analytics.py:37 | Each running-maximum entry is attained by some value at or before that day. |
| Sums.RunningMaxShape | src/utils/analytics.py:37 | The running maximum never decreases, and it equals the series exactly when the series never decreases. |
| Drawdown.DrawdownAgainst | src/utils/analytics.py:38-39 | Each entry is the percentage that takes the peak to the value. The worst entry is one of the entries and no entry is lower. An empty series gives worst 0. |
| Drawdown.MaxDrawdown | src/utils/analytics.py:32-40 | The drawdown of a series against its own running maximum, with the same guarantees. |
| Drawdown.DrawdownEntry | src/utils/analytics.py:37-38 | For positive values, each drawdown entry is ≤ 0 and is 0 exactly at a running maximum. |
| Drawdown.DrawdownOfPositive | src/utils/analytics.py:37-39 | For positive values, every entry is ≤ 0, with 0 exactly at new highs, and the maximum drawdown is ≤ 0. |
| Drawdown.RisingWhenNoDrawdown | src/utils/analytics.py:37-39 | A positive series whose maximum drawdown is 0 never decreases. |
| Drawdown.NoDrawdownWhenRising | src/utils/analytics.py:37-39 | A positive series that never decreases has maximum drawdown 0. |
| Drawdown.NoDrawdownIffRising | src/utils/analytics.py:37-39 | For a positive series, the maximum drawdown is 0 exactly when the series never decreases. |
| Allocation.Kept | src/utils/analytics.py:193-195 | A holding is kept exactly when its symbol is selected. |
| Allocation.KeptOne | src/utils/analytics.py:193-195 | A single holding is kept exactly when its symbol is selected. |
| Allocation.KeptAppend | src/utils/analytics.py:193-195 | The kept holdings of a concatenation are those of each part, in order. With the single-holding case this fixes the kept list, order and repeats included. |
| Allocation.SliceOf | src/utils/analytics.py:197-207 | A row exists exactly when the holding has an average cost, a quantity and a non-zero cost. Otherwise the error follows the source's evaluation order. A row carries the symbol, the sector (default "Other") and quantity times quote (latest price, else average cost). Its return is the percentage that takes the cost to the quote. |
| Allocation.AllocateSucceeds | src/utils/analytics.py:193-210 | The allocation succeeds exactly when no kept holding fails. |
| Allocation.AllocateRows | src/utils/analytics.py:193-208 | A successful allocation has one row per kept holding, in order, each that holding's row. |
| Allocation.AllocateError | src/utils/analytics.py:193-207 | A failed allocation reports the error of the first kept holding that cannot be valued. |
| Allocation.AllocateSucceedsIff | src/utils/analytics.py:193-207 | The allocation succeeds exactly when every selected holding has a quantity and a non-zero average cost. |
| Allocation.SliceReturn | src/utils/analytics.py:197-207 | Without a latest price the row is valued at cost with return 0. With a positive cost the return is non-negative exactly when the quote is at least the cost. |
| Sums.Mean | src/tools/stock_tools.py:354 | The mean times the count is the sum. |
| Sums.MeanBetweenExtremes | src/tools/stock_tools.py:354 | The mean lies between the minimum and the maximum. |
| Calculator.CalculatePnl | src/tools/stock_tools.py:244-264 | Invested is the sum of quantity times average price, and current is the sum of quantity times current price (defaulting to average). Unrealized P&L is their difference. Its percentage takes invested to current when invested is positive, and is 0 otherwise. |
| Calculator.WorthAgreesWithMarketValue | src/tools/stock_tools.py:251-283 | When every holding has a current price, the P&L current value equals the exposure total value. |
| Calculator.AddToKeys | src/tools/stock_tools.py:288-295 | Adding to a bucket keeps a known key in place and appends a new key at the end. |
| Calculator.AddToValue | src/tools/stock_tools.py:288-295 | Adding to a bucket raises that key's value by the amount and leaves every other key's value unchanged. |
| Calculator.AddToSum | src/tools/stock_tools.py:288-295 | Adding to a bucket raises the bucket total by the amount. |
| Calculator.UniqueFacts | src/tools/stock_tools.py:288-295 | The first-occurrence key list has no repeats and holds exactly the keys seen. |
| Calculator.GroupKeys | src/tools/stock_tools.py:282-295 | The grouped keys are the holdings' keys in order of first occurrence. |
| Calculator.GroupValues | src/tools/stock_tools.py:282-295 | Each key's grouped value is the total market value of the holdings with that key. |
| Calculator.GroupSum | src/tools/stock_tools.py:277-295 | The grouped values add up to the total portfolio value. |
| Calculator.GroupFacts | src/tools/stock_tools.py:277-295 | The grouping has distinct keys, exactly the keys seen, per-key totals and the overall total. |
| Calculator.Percent | src/tools/stock_tools.py:299 | The percentage times the whole is the part times 100. |
| Calculator.PercentAdd | src/tools/stock_tools.py:299 | Percentages of the same whole add. |
| Calculator.SharesSum | src/tools/stock_tools.py:297-306 | The percentages of a bucket list add up to the percentage of its total. |
| Calculator.ExposureBy | src/tools/stock_tools.py:297-306 | The exposure has the grouped keys in insertion order, each as its total's percentage of the portfolio value. |
| Calculator.CalculateExposure | src/tools/stock_tools.py:277-311 | The total value is the sum of quantity times current price (missing means 0). With a total ≤ 0 both maps are empty. Otherwise each map has the distinct sector (default "Unknown") or asset-type (default "equity") keys in first-seen order. Each entry is its key's market value as a percentage of the total, and the entries add up to 100. |
| Calculator.ExposureAddsUpTo100 | src/tools/stock_tools.py:297-306 | With a positive total value, each exposure map's percentages add up to 100. |
| Calculator.RollingEnds | src/tools/stock_tools.py:329-332 | The end days kept are exactly those whose start price is positive, in increasing order. |
| Calculator.DefaultRollingReturns | src/tools/stock_tools.py:315 | With the window at its default of 30, one return per kept window, each taking the start price to the end price. |
| Calculator.RollingReturns | src/tools/stock_tools.py:325-336 | There is one return per kept window. Each is the percentage that takes the start price to the end price. Fewer prices than the window plus one give none. |
| Calculator.RollingCount | src/tools/stock_tools.py:325-336 | There are at most n - window returns, and exactly that many when every start price is positive. |
| Calculator.PositivePes | src/tools/stock_tools.py:349 | Only positive P/E ratios are collected, and every holding's positive ratio is. |
| Calculator.PositivePesAppend | src/tools/stock_tools.py:349 | One holding contributes its ratio exactly when it is positive (a missing ratio reads as 0). A concatenation contributes the ratios of each part, in order. |
| Calculator.DefaultPeAnalysis | src/tools/stock_tools.py:338 | With the market P/E at its default of 22, the analysis fails only for missing data, and the verdict compares the average with 22. |
| Calculator.PeAnalysis | src/tools/stock_tools.py:349-360 | No positive ratio gives the no-data error, and a zero market P/E fails. Otherwise the average is the mean of the positive ratios and lies between their extremes. The verdict is "Overvalued" exactly when the average exceeds the market P/E, and the premium takes the market P/E to the average. |
| Calculator.AveragePeIsPositive | src/tools/stock_tools.py:349-354 | A reported average P/E is positive. |
| Calculator.PairFlows | src/tools/stock_tools.py:205-206 | XIRR input fails exactly on a length mismatch. Otherwise each amount is paired with its date. |
| Calculator.GrowthRatio | src/tools/stock_tools.py:228-231 | CAGR input fails exactly when initial value or years is ≤ 0. Otherwise the growth ratio takes initial to final and is ≥ 1 exactly when final ≥ initial. |
| Calculator.Buys | src/tools/stock_tools.py:402-404 | Exactly the buy transactions are kept. |
| Calculator.BuysAppend | src/tools/stock_tools.py:402-404 | One transaction is kept exactly when it is a buy. The buys of a concatenation are those of each part, in order. |
| Calculator.PlanXirr | src/tools/stock_tools.py:400-413 | XIRR is attempted exactly when there are transactions, a start date and at least one buy. The flows are -(qty*price) per buy, charges ignored, with their dates, then the current total value dated today. |
| Calculator.ToolRequestIsWellFormed | src/tools/stock_tools.py:402-413 | A planned XIRR call always passes the length guard, and its last flow is the exposure total value. |
| Schema.ValidIffConforms | src/utils.py:83-109 | The check passes exactly when the three top-level keys exist, both lists are lists, every holding has symbol/asset_type/quantity/avg_price, and every transaction has date/symbol/transaction_type/quantity/price. `charges` is not required. |
| Schema.MissingFieldFirst | src/utils.py:85-87 | A missing top-level key is reported exactly when it is the first missing one in list order. |
| Schema.NotAListFirst | src/utils.py:90-102 | "holdings must be a list" comes right after the top-level keys. "transactions must be a list" comes only once every holding is complete. |
| Schema.HoldingMissingFirst | src/utils.py:93-97 | Holding i missing field f is reported exactly when i is the first incomplete holding and f its first missing field. |
| Schema.TransactionMissingFirst | src/utils.py:103-107 | Transaction i missing field f is reported exactly when all holdings are complete, i is the first incomplete transaction, and f its first missing field. |
| Schema.RaisedIff | src/utils.py:93-107 | The check raises exactly when the first incomplete record is neither a dictionary, a list nor a string. |
| Schema.AbsentIff | src/utils.py:93-97 | The records loop reports record i and field f exactly when they are the first failure. |
| Schema.AllPresentIff | src/utils.py:93-97 | The records loop passes exactly when every record has every field. |
| Schema.NotContainerIff | src/utils.py:93-97 | The records loop raises at record i exactly when it is the first incomplete record and not a container. |
| Symbols.SplitJoin | src/utils.py:161 | Joining the split pieces with '.' gives back the symbol. |
| Symbols.SplitPieces | src/utils.py:161 | No split piece holds a '.'. |
| Symbols.SplitCount | src/utils.py:161-163 | There is one piece more than there are dots. |
| Symbols.SplitPair | src/utils.py:161-165 | Splitting ticker.exchange gives the two pieces when neither holds a dot. |
| Symbols.Parse | src/utils.py:158-170 | A parsed listing formats back to the symbol. Its ticker has no '.', and its exchange is NSE or BSE. |
| Symbols.ParseErrors | src/utils.py:158-168 | No '.' gives the format error, and two or more dots give the malformed error. Exactly one dot followed by anything but NSE/BSE gives the unsupported-exchange error naming that piece. |
| Symbols.ParseFormat | src/utils.py:161-170 | Every dot-free ticker with a supported exchange survives formatting then parsing. |
| Currency.TierOf | src/utils.py:122-129 | The unit is crores from 10,000,000 up, lakhs from 100,000 up to below that, and plain below 100,000. Both thresholds are inclusive. |
| Currency.FormatDefault | src/utils.py:112 | With the currency at its default, rupees: the prefix is "₹", and the suffix is " Cr", " L" or nothing exactly in the crore, lakh and plain ranges. |
| Currency.Format | src/utils.py:122-131 | Rupee amounts get "₹". The crore figure is amount/10^7 (≥ 1) with " Cr". The lakh figure is amount/10^5, in [1, 100), with " L". Otherwise it is the grouped amount. Other currencies show the code, a space and the grouped amount. |
| Currency.TierMonotone | src/utils.py:122-129 | A larger amount never takes a smaller unit. |

## Where the code and its description differ

The model follows the code in each of these cases.

- **Sell charges.** A sell subtracts `qty*price + charges` from invested capital and records
  `+(qty*price + charges)` as its cash flow. The charges are added, not subtracted from the
  proceeds.
- **Negative capital.** Invested capital may go negative after sells. The profit-% is then not
  0: its sign reads reversed (`Analytics.ProfitPct`).
- **Phantom never falls.** Sells never reduce the phantom benchmark position.
- **Empty log.** An empty transaction log raises (the log has no `date` column). Only a
  non-empty log that the selection filters to nothing gives "no data".
- **Empty selection list.** An empty selection list selects everything, because it is falsy in
  the code.
- **Missing benchmark column.** A missing NIFTY_50 column fails before the empty-calendar check.
- **Off-calendar transactions.** A transaction dated on a day that is not in the price calendar
  is never replayed.
- **Two cash-flow lists.** The engine's flows include charges and sells. The tool's flows include
  buys only, without charges.

## Left out

- Analytics.Process: IEEE infinities and NaN are not modelled. Where the source would return
  them, the model reports `Failed(NonFinite)`. This covers a non-zero value over zero invested
  capital, a buy on a day with benchmark price 0, and a running maximum of 0 in the drawdown
  (NaN entries that pandas' `min` skips).
- Analytics.Process: with pandas, a `charges` column present on only some transactions makes
  the others' charges NaN. The model reads a missing charge as 0.
- XIRR: the root-finding of `calculate_xirr`/`xnpv` and the hard-coded 12.14 placeholder return
  value are not modelled; only the length guard and the flow assembly are.
- Beta and Sharpe (`calculate_risk_metrics`): these are floating-point statistics (covariance,
  sample standard deviation, square root).
- Calculator.GrowthRatio: the CAGR fractional power is not modelled. Only the guard and the growth
  ratio final/initial it is applied to are.
- `round(..., 2)` and number rendering (`:.2f`, thousands grouping): results are exact and
  unrounded. `Currency.Figure` names the rendering instead of producing digits.
- Parsing dates, reading JSON and the price panel, the clock (`datetime.now()` is the `today`
  parameter), the database, HTTP, LLM agents and the UI.
- Reconstruction.WellFormed: the price panel is assumed to have strictly increasing dates,
  distinct columns and one price per date and column. The engine checks none of this: a pandas
  index may be unsorted or repeat a date. It is an assumption about the caller. The panel the
  application passes is built over `pd.date_range(..., freq='B')` in `src/utils/mock_data.py`,
  which gives sorted, distinct business days.
- Calculator.RollingReturns: the window is a natural number. A negative window (Python's
  negative indexing) is not modelled.
- Holdings are assumed to carry a symbol. Fields that are present but `None` are treated like
  missing ones.
- Calculator.PlanXirr: a transaction missing `quantity` or `price` is not representable. The
  tool reads such a field as 0, so the buy's outflow would be 0. A `Transaction` always carries
  both numbers.
- Drawdown.MaxDrawdown: requires every running maximum to be non-zero. Pandas would divide by a
  zero peak, giving NaN for a zero value (which `min` skips) or an infinity for a negative one.
  For example, `[0, 5, 3]` gives a maximum drawdown of -40 in the source. The model has no NaN, so
  the engine reports `Failed(NonFinite)` for such a series.
- Drawdown.DrawdownAgainst: requires every peak to be non-zero, for the same reason.
- Calculator.PlanXirr: the truthiness of `start_date` is modelled as a boolean input. The
  tool's P&L and exposure calls are modelled by `Calculator.CalculatePnl` and
  `Calculator.CalculateExposure`.
- Schema.Validate: the error-message strings are not produced. The `Problem` value carries the
  same information (field name, record index). The top-level value is assumed to be a
  dictionary, as the signature says.
