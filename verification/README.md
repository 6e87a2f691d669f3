# NVSTWZ trading bot core, modelled in Dafny

This project models the core of the NVSTWZ autonomous investment bot. The bot runs a loop. Each cycle it:

1. resets its daily counters;
2. re-values its portfolio against fresh quotes;
3. checks its daily and total loss limits;
4. asks its strategy engine for trading signals;
5. validates, sizes and executes those signals against a simulated ledger;
6. watches its open positions for stop-loss and profit-target exits.

The model covers `src/bot.py`, `src/strategy.py` and `src/models.py`.

| file | module | what it holds |
|---|---|---|
| `wrappers.dfy` | `Wrappers` | `Option` (a quote the market source could not supply) and `Result` (a computation the source aborts with an exception) |
| `seqs.dfy` | `Seqs` | `Present` (the values of the present entries of a list of optional results) and `Flatten` (a list of lists joined end to end), the reference definitions for the signal generators |
| `models.dfy` | `Models` | the records and enumerations of `src/models.py` with their declared defaults, and the `QuoteBook` through which the model reads the market source |
| `execution.dfy` | `Execution` | the simulated executor `_execute_trade` on a `Ledger` (the portfolio together with the bot's list of held symbols), and the ledger invariant `Sound` |
| `monitor.dfy` | `Monitor` | `_monitor_positions`, `_close_position` and `_close_all_positions` |
| `strategy.dfy` | `Strategy` | the signal pipeline of `src/strategy.py` |
| `bot.dfy` | `Bot` | the orchestrator: state, capital check, position sizing, signal execution, re-valuation, risk gate, daily reset, the main-loop cycle, status and shutdown |

Modelling choices:

- **Numbers.** Money, prices and quantities are exact reals. Timestamps are whole seconds and dates are day numbers.
- **Market source and clock.** The market source is an oracle. Every phase of a cycle reads its quotes from its own `QuoteBook`: re-pricing, news, validation and monitoring. A symbol missing from the map is a fetch that returned nothing. The clock is the `today` and `now` inputs of a cycle.
- **Exceptions.** Where the source catches an exception, the model follows the path the source takes:
  - A signal priced at zero makes sizing divide by zero, so `_execute_signal` returns false.
  - A mover that passes the change and volume filters with an open price of zero makes the momentum score divide by zero. The exception aborts the whole momentum batch, so signal generation returns nothing.
  - A zero initial capital or a zero day-start value stops `_update_portfolio` part-way, after the totals and profit figures are written and before the current capital is.
  - A SELL that empties a position whose symbol is missing from the held-symbols list has already changed the portfolio when the list removal raises. The executor then returns false.
  - The main loop's request for the market status raises: the market data engine defines no `get_market_status`. The loop's handler appends the message to `errors` and skips the rest of the cycle, after the daily reset and before re-valuation. The model makes the request's outcome a cycle input (`CycleInput.statusFailure`), so it also covers a market source that answers; `Bot.RunWithoutMarketStatus` shows what the loop does against this repository's market source.
- **Which position a close sells from.** `_monitor_positions` and `_close_all_positions` walk over a copy of the position list. `_execute_trade` sells from the first position held in the symbol, which may be a different object. `Monitor.Pass` keeps track of which copied position is which, so the model follows the source here too.

Where the code and its design notes disagree, the model follows the code:

- A BUY always appends a new position; it never merges into an existing one.
- A failed order stays `PENDING`. Nothing is ever marked `REJECTED`.
- A BUY sized to zero shares is filled. It costs nothing, adds a position of zero shares and counts as a trade (`Bot.ZeroShareBuyFills`).
- A SELL looks only at the first position held in its symbol. With two positions in one symbol, a stop-loss on the second one sells from the first (`Monitor.DuplicateStopLossSellsEarlierPosition`).
- After a stop-loss close, the profit-target rule is still checked against the same quote. The two rules cannot both fire unless the average price is zero or negative (`Monitor.TriggersExclusive`).
- The limit on signals per day is the strategy's own `max_daily_trades` (20). The trading configuration's `max_daily_trades` (50) is never read by the core.

## Model

| member | source | states |
|---|---|---|
| `Models.ParseOrderType` | src/models.py:9-14 | exactly the four order-type strings parse, and the parsed member's value is the input string |
| `Models.ParseOrderStatus` | src/models.py:16-21 | exactly the four status strings parse, and the parsed member's value is the input string |
| `Models.EnumValuesRoundTrip` | src/models.py:9-21 | parsing a member's value gives the member back; BUY is the only order type whose value is "BUY" |
| `Models.NewTrade` | src/models.py:37-48 | a trade built from the required fields is PENDING, with no commission, id or order id |
| `Models.NewNewsEvent` | src/models.py:77-88 | a news event built without symbols or impact has an empty symbol list and zero impact |
| `Models.NewPortfolio` | src/models.py:90-101 | a new portfolio holds no positions and keeps the given totals |
| `Execution.FirstMatch` | src/bot.py:236-237 | the SELL loop stops at the first position held in the symbol; none is found exactly when no position is held in it |
| `Execution.RemoveFirst` | src/bot.py:247 | `list.remove` drops one occurrence of the symbol, and fails exactly when the symbol is absent |
| `Execution.ExecuteTrade` | src/bot.py:203-258 | BUY fills iff cash covers quantity times price, then moves that cost from cash to invested and appends a position and a held symbol. SELL fills from the first position in the symbol if it holds enough, updating it in place or removing it when emptied. Every failure leaves the ledger unchanged, except the list-removal failure after the sale. A filled trade is marked FILLED |
| `Execution.SyncedSellOutcome` | src/bot.py:234-254 | while the held-symbols list matches the positions, a SELL fills exactly when the first position in its symbol holds enough |
| `Execution.ExecuteTradePreservesSynced` | src/bot.py:210-254 | every execution keeps the held-symbols list equal, as a multiset, to the symbols of the positions |
| `Execution.ExecuteTradePreservesSound` | src/bot.py:210-254 | an admissible order keeps cash, every quantity and every price non-negative, and the symbol list in step |
| `Execution.ExecuteAllPreservesSound` | src/bot.py:203-258 | the ledger invariant holds over any run of admissible orders |
| `Execution.BuyThenSellRestores` | src/bot.py:210-250 | buying a symbol not held and then selling the same quantity at the same price restores the ledger exactly |
| `Execution.FreshBuyIsFirstMatch` | src/bot.py:217-237 | after a BUY in a symbol not held, the new position is the one a later SELL of that symbol finds |
| `Monitor.CloseOrder` | src/bot.py:311-321 | a close is a SELL of the position's whole quantity at its current price |
| `Monitor.CloseObject` | src/bot.py:311-330 | closing a copied position runs the executor on its order; only the quantity of the position actually sold from changes |
| `Monitor.Reprice` | src/bot.py:290-294 | re-pricing changes only that position's price, market value, unrealized profit and update time |
| `Monitor.TriggersExclusive` | src/bot.py:296-306 | with a positive average price, stop-loss and profit target never fire on the same quote |
| `Monitor.MonitorObject` | src/bot.py:284-306 | a position without a quote is left alone. A quoted one is re-priced and then, on stop-loss or on profit target, closed by a full SELL at the quote; otherwise it is only re-priced |
| `Monitor.MonitorPositions` | src/bot.py:281-309 | a monitoring pass never adds a position, and a pass in which no held position is quoted changes nothing; `Monitor.MonitorPreservesSound` states the invariant it keeps |
| `Monitor.MonitorPreservesSound` | src/bot.py:281-309 | monitoring at non-negative quotes keeps the ledger invariant |
| `Monitor.CloseAllPositions` | src/bot.py:332-337 | closing all positions leaves the portfolio empty and credits each position's quantity at its last price to cash; `Monitor.CloseAllEmpties` adds the held-symbols list |
| `Monitor.CloseAllEmpties` | src/bot.py:332-337 | closing all positions empties the portfolio, credits each position's quantity at its last price to cash, and empties a matching held-symbols list |
| `Monitor.CloseAllPreservesSound` | src/bot.py:332-337 | closing all positions keeps the ledger invariant |
| `Monitor.CloseFront` | src/bot.py:311-323 | closing the position that is first in the list sells all of it: it leaves the list and its quantity times its current price goes to cash |
| `Monitor.MonitorObjectStopLoss` | src/bot.py:290-306 | on a stop-loss, with a positive average price, monitoring re-prices the position and closes it once, for the stop-loss only |
| `Monitor.StopLossClosesSolePosition` | src/bot.py:296-300 | a sole position quoted at or below 98% of its average price is sold in full at the quote, leaving portfolio and symbol list empty |
| `Monitor.DuplicateStopLossSellsEarlierPosition` | src/bot.py:284-306 | with two positions in one symbol, the stop-loss of the second sells from the first and leaves the losing position open |
| `Strategy.DefaultConfig` | src/strategy.py:17-26 | the declared strategy defaults |
| `Strategy.NewEngine` | src/strategy.py:31-35 | a new engine has the default configuration, no trades and today's reset date |
| `Strategy.ResetDailyCounter` | src/strategy.py:292-297 | the engine's count restarts only on a later day; otherwise nothing changes |
| `Strategy.ResetDailyCounterIdempotent` | src/strategy.py:292-297 | resetting twice on one day is resetting once |
| `Strategy.UpdateTradeCount` | src/strategy.py:299-301 | one more trade is counted, nothing else changes |
| `Strategy.MomentumScore` | src/strategy.py:181-196 | the score fails exactly when the open price is zero; it is at most 1, and non-negative for a sane quote |
| `Strategy.MomentumSignal` | src/strategy.py:77-104 | a mover raises exactly when it passes both filters with a zero open. It yields a signal exactly when it passes both filters and its score beats the minimum confidence. The signal is BUY iff the price rose, with target price·(1 + change/200) and stop at the configured loss |
| `Strategy.MomentumSignals` | src/strategy.py:73-106 | the batch fails iff some mover raises; each emitted signal is the signal of some mover |
| `Strategy.MomentumSignalsInOrder` | src/strategy.py:73-106 | when no mover raises, the batch holds exactly one signal per mover that yields one, in the movers' order |
| `Strategy.RecencyFactor` | src/strategy.py:211-212 | recency is never negative, at most 1 for published news, and 0 after a day |
| `Strategy.NewsConfidence` | src/strategy.py:198-219 | confidence is capped at 1 and is never below the event's impact (capped at 1) |
| `Strategy.NewsSignal` | src/strategy.py:115-147 | a symbol without a quote yields nothing. Otherwise a signal comes exactly when confidence beats the minimum; it is BUY iff the news is bullish, with target at the quote ± the profit target, and it carries the event |
| `Strategy.EventSignals` | src/strategy.py:115-147 | every signal of one event satisfies the news-signal properties and carries that event |
| `Strategy.EventSignalsInOrder` | src/strategy.py:118-147 | one event yields exactly one signal per symbol whose news signal is emitted, in the order of the event's symbols |
| `Strategy.NewsSignals` | src/strategy.py:108-149 | only events of impact 0.7 or more that name symbols produce signals; each signal satisfies the news-signal properties and carries one of the input events |
| `Strategy.NewsSignalsInOrder` | src/strategy.py:108-149 | the news batch is the signal lists of the events, joined in event order, with nothing from a skipped event |
| `Strategy.NewsSignalsAppend` | src/strategy.py:108-149 | events are handled independently: the batch of two event lists is the two batches joined |
| `Strategy.Rsi` | src/strategy.py:250-260 | the RSI stand-in is 50 iff there is no previous close, 60 iff the price rose, and 40 otherwise |
| `Strategy.Macd` | src/strategy.py:262-268 | the MACD stand-in is non-zero iff there is a previous close and the price moved, positive iff it rose |
| `Strategy.TechnicalScore` | src/strategy.py:221-248 | the score is 0.2 for a MACD move plus 0.3 for a move beyond 5%, so it never exceeds 0.5 |
| `Strategy.TechnicalSignal` | src/strategy.py:151-179 | a technical signal comes exactly when its score beats the minimum confidence, and it is always a SELL |
| `Strategy.TechnicalSignals` | src/strategy.py:151-179 | technical signals are SELLs of confidence at most 0.5, each from some mover |
| `Strategy.TechnicalSignalsInOrder` | src/strategy.py:151-179 | the technical batch holds exactly one signal per mover that yields one, in the movers' order |
| `Strategy.TechnicalSignalsAppend` | src/strategy.py:151-179 | movers are scored independently: the batch of two mover lists is the two batches joined |
| `Strategy.TechnicalSilentByDefault` | src/strategy.py:151-179 | with a minimum confidence of 0.5 or more (the default is 0.7) no technical signal is ever produced |
| `Strategy.FilterSignals` | src/strategy.py:270-290 | the filter keeps, in order and with multiplicity, exactly the signals for symbols not held, of enough confidence and with target at most twice the stop |
| `Strategy.FilterUnique` | src/strategy.py:270-290 | the filter's contract determines its output: any ordered subsequence of the input holding only kept signals, each as often as the input does, is the filter's output |
| `Strategy.SortByConfidence` | src/strategy.py:62-63 | the ranking is a permutation in non-increasing confidence |
| `Strategy.SortStable` | src/strategy.py:62-63 | signals of equal confidence keep their relative order, as Python's sort does |
| `Strategy.Rank` | src/strategy.py:62-67 | the cut keeps min(count, budget) signals in non-increasing confidence, and none left out is more confident than one kept; of the signals tied at any confidence, the kept ones are the earliest in the candidates' order |
| `Strategy.Candidates` | src/strategy.py:53-60 | candidate generation fails iff the momentum heuristic raises. Otherwise the candidates are, in order and with multiplicity, exactly the signals passing the filter from the momentum, news and technical batches, concatenated in that order |
| `Strategy.GenerateSignals` | src/strategy.py:37-71 | after the daily reset: nothing once the budget is used up or a heuristic raised, otherwise the ranked candidates cut to the remaining budget |
| `Strategy.GeneratedSignalsKept` | src/strategy.py:37-71 | every generated signal passed the filter, and the list is in non-increasing confidence |
| `Strategy.ValidateSignal` | src/strategy.py:303-331 | a signal is valid iff a fresh quote exists, the price has not passed a BUY's target nor fallen below another side's target, and volume meets the floor |
| `Strategy.CandidateBuysNonNegative` | src/strategy.py:53-60 | with non-negative prices and a profit target above -100%, every BUY candidate has a non-negative target |
| `Strategy.BuyTargetsNonNegative` | src/strategy.py:37-71 | the same holds of every generated BUY signal |
| `Bot.DefaultSettings` | src/config.py:13-14 | ten dollars of initial capital and no daily loss allowed by default |
| `Bot.NewBot` | src/bot.py:22-43 | a new bot (with its components initialised) holds only cash equal to the initial capital, has no trades, and starts both daily counters today in agreement |
| `Bot.Start` | src/bot.py:45-101 | component initialisation runs before validation and whatever its outcome: the portfolio is replaced by one holding only the initial capital in cash, stamped with the start time, and the strategy engine by a fresh one; the held-symbols list is kept. The bot then runs only with a valid configuration, and nothing else changes |
| `Bot.StartFreshBot` | src/bot.py:45-101 | on a freshly constructed bot, starting only sets the running flag to the configuration's validity |
| `Bot.StartDesyncs` | src/bot.py:82-101 | after a start the portfolio and the held-symbols list agree exactly when the list was empty before, so restarting a bot that holds positions drops them from the portfolio only |
| `Bot.ShortOfCashRefuses` | src/bot.py:170-173 | with less than a tenth of the current capital in cash, a signal is refused and the bot is unchanged; a signal that executes had at least that much cash |
| `Bot.Trunc` | src/bot.py:278-279 | `int()` truncates toward zero |
| `Bot.PositionSize` | src/bot.py:266-279 | sizing fails iff the target is zero. For a positive target it gives the largest whole number of shares whose cost fits a fifth of the cash; for a negative target, a share count of zero or less |
| `Bot.SignalTrade` | src/bot.py:178-186 | the order carries the signal's symbol, side and target price and the sized quantity, and is PENDING |
| `Bot.ExecuteSignal` | src/bot.py:162-201 | a signal that fails validation, the capital check or sizing changes nothing. Otherwise the result is the executor's, and a fill appends the FILLED trade to the active trades |
| `Bot.Step` | src/bot.py:143-146 | one turn of the execution loop runs the signal against its quote; a fill adds one FILLED active trade and one to each of the two counts, a failure adds nothing |
| `Bot.ExecuteSignals` | src/bot.py:142-146 | each fill adds one active trade, one to the bot's count and one to the engine's count; nothing else changes |
| `Bot.SignalTradeAdmissible` | src/bot.py:175-186 | with non-negative cash, a sized order is admissible unless it is a BUY with a negative target |
| `Bot.ExecuteSignalPreservesSound` | src/bot.py:162-201 | executing a signal keeps the ledger invariant |
| `Bot.ExecuteSignalsPreservesSound` | src/bot.py:142-146 | executing any list of signals whose BUYs have non-negative targets keeps the ledger invariant |
| `Bot.ZeroShareBuyFills` | src/bot.py:266-279 | a BUY whose target exceeds a fifth of the cash is filled with zero shares, leaving the cash unchanged |
| `Bot.ZeroShares` | src/bot.py:266-279 | a fifth of the cash below a positive target sizes to zero shares |
| `Bot.RepriceAll` | src/bot.py:344-350 | every quoted position is re-valued at its quote; the others keep their stale values |
| `Bot.UpdatePortfolio` | src/bot.py:339-371 | the total is cash plus the positions' market values, invested is total minus cash, and the profits are measured from the initial capital and the day's start. Returns are set as far as the divisors are non-zero; the current capital is updated only when both are |
| `Bot.UpdatePortfolioIdempotent` | src/bot.py:339-371 | re-valuing twice against the same quotes is re-valuing once |
| `Bot.MarketValueAtQuotes` | src/bot.py:344-352 | when every position is quoted, the positions' value is the sum of quantity times quote |
| `Bot.UpdatePortfolioValuesAtQuotes` | src/bot.py:342-355 | then the total value is the cash plus that sum |
| `Bot.UpdatePortfolioPreservesSound` | src/bot.py:339-371 | re-valuing at non-negative quotes keeps the ledger invariant |
| `Bot.CheckRiskLimits` | src/bot.py:373-385 | trading may continue iff the day's loss is within the allowed fraction of initial capital and the total loss within half of it |
| `Bot.DefaultRiskGateHaltsOnAnyLoss` | src/bot.py:375-378 | under the default settings, any loss on the day closes the risk gate |
| `Bot.ResetDailyCounters` | src/bot.py:387-395 | on a later day, the bot's trade count and day's profit restart from the current capital; otherwise nothing changes |
| `Bot.ResetDailyCountersIdempotent` | src/bot.py:387-395 | resetting twice on one day is resetting once |
| `Bot.Cycle` | src/bot.py:122-160 | a cycle whose market-status request raises does nothing after the daily reset but append the message to `errors`. Otherwise a cycle whose risk gate closes stops after re-valuation, and one whose gate is open goes on to trade. A cycle never changes the running flag, the initial capital or the warnings, and never drops active trades |
| `Bot.Trading` | src/bot.py:139-152 | trading executes the generated signals with the engine as generation left it, then monitors at the monitoring quotes and sets the heartbeat; it never drops active trades |
| `Bot.RiskGateStopsTrading` | src/bot.py:133-137 | when the gate closes, no signal is generated or executed, no position is monitored and no heartbeat is recorded |
| `Bot.CyclePreservesSound` | src/bot.py:122-160 | a cycle on well-formed quotes keeps the ledger invariant |
| `Bot.CycleKeepsCounters` | src/bot.py:122-146 | on a clock that does not run backwards, the bot's and the engine's daily counts agree and the engine never exceeds its daily maximum |
| `Bot.TradingKeepsCounters` | src/bot.py:139-146 | trading on the day of the bot's last reset keeps the two daily counts in agreement and within the engine's maximum |
| `Bot.ExecuteSignalsKeepCounters` | src/bot.py:142-146 | executing no more signals than the remaining budget keeps the two counts equal and within the daily maximum |
| `Bot.Run` | src/bot.py:118-160 | the main loop never changes the running flag or the initial capital; what it does to the ledger is stated by `Bot.RunPreservesSound` and `Bot.RunWithoutMarketStatus` |
| `Bot.RunPreservesSound` | src/bot.py:118-160 | the ledger invariant holds across any number of well-formed cycles |
| `Bot.RunWithoutMarketStatus` | src/bot.py:122-160 | when the market-status request raises in every cycle, the loop never changes the ledger, the active trades or the engine, and records one error per cycle |
| `Bot.LastFive` | src/bot.py:408-409 | `xs[-5:]` is the suffix of length min(5, length) |
| `Bot.Status` | src/bot.py:415-426 | the status reports the bot's flags, counts and capital, and the last five errors and warnings |
| `Bot.Stop` | src/bot.py:72-80 | stopping clears the running flag and closes every position, crediting its value to cash |

## Left out

- Asynchrony, the sleeps between cycles and after errors, and logging are not modelled. They do not change the state the core computes.
- `Bot.Stop`: modelled only between cycles. The SIGINT/SIGTERM handler (src/bot.py:111-113) schedules `stop()` as a task, which can run at any await point inside a cycle. The rest of that cycle still runs, because the running flag is only tested at the top of the loop, so it may open positions after they were all closed. The model does not interleave a stop with a cycle.
- The market data engine (`src/market_data.py`) is not part of this model. Its answers are inputs: quote books, movers, news, and whether the market-status request raises. The market status itself is never read by the core.
- Other exceptions raised inside the market source are not modelled. Where one reaches a generator or a monitoring pass, the source catches and logs it. Where one reaches the main loop, the handler appends its message to `errors` and skips the rest of the cycle, as `Bot.Cycle` does for the market-status request.
- Configuration loading and `config.validate()` are not modelled. Their outcome is the `configValid` argument of `Bot.Start`, and the clock readings `_initialize_components` takes are its `now` and `today` arguments. The market data engine it also creates is not part of this model.
- Floating-point rounding is not modelled; all arithmetic is exact over the reals.
- `Strategy.MomentumSignal`: the reasoning text omits the formatted change and volume figures the source writes into it.
- `pending_orders`, `RiskMetrics` and `AssetType` are declared in the source but never used by the core, so they are left out.
- `Bot.Cycle`: the heartbeat status record built by `_log_status` is not kept, because the source only logs it. `Bot.Status` models the record itself.
