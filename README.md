# Trading bot core, modelled in Dafny

A model of the core of a small crypto-futures trading bot. The bot trades one symbol on Bybit USDT perpetuals and keeps its state in a SQL database. The modelled parts are:

- **the engine loop** (`BotEngine`). Each iteration:
  1. resets the daily counters on a new UTC day;
  2. loads the single settings row;
  3. applies three throttles, in order: the daily-loss limit, the daily trade cap and the cooldown since the last entry;
  4. if a trade is open on the symbol, it manages that trade: it trails the stop, then closes the trade at TP or SL;
  5. otherwise it asks the EMA-crossover strategy for a signal, filters on the spread, sets the leverage and sizes the order by risk and by margin;
  6. it places the entry: a market order, or a limit order polled until it fills, with an optional market fallback;
  7. it records the trade bracketed around the fill, optionally puts SL/TP on the exchange, and updates its counters.

  An exception anywhere in the iteration keeps whatever was already written. It logs `LOOP_ERROR`, and the loop pauses for 3 seconds.
- **the repository** (`repo.py`): settings get-or-create and update, the append-only event log, trade insertion, updating a trade by id, the open-trade lookup and the "last N rows, oldest first" listings.
- **the exchange adapter** (`bybit.py`): ticker and balance normalisation, the "leverage already set" error treated as success, fill parsing, the order lookup that scans the open orders and then the closed ones, fill polling, and the parameters of the trading-stop and limit-order requests.
- **the strategy** (`strategy.py`): the EMA series, the RSI and the crossover signal.
- **the records** (`models.py`): `Settings`, `Trade` and `Event`, with their defaults.

How the modules map to the code:

- Pure code becomes functions and lemmas: `Strategy`, `Risk` (the engine's sizing, gating, exit and trailing arithmetic) and most of `Exchange`.
- The repository becomes the value-level `Store.Db` functions. The class `Store.Store` wraps them; its methods update `settingsRow`, `trades` and `events` in place, and each is proved equal to its function.
- The engine's fields are the class `Engine.BotEngine`. Its methods change the engine and the store step by step, as the loop body does. Each is proved equal to a function of module `Tick`, which describes one iteration on values.
- `TickProperties` proves what an iteration guarantees:
  - the gate order;
  - monitoring only when a trade is open;
  - the facts of an entry;
  - the store invariants every iteration keeps: ids in insertion order, at most one OPEN trade per symbol, events and trades only appended, stops that only tighten, closed trades frozen.

  `Engine.BotEngine.Run` carries these invariants through the loop.

The world outside the program is an input:

- every answer the exchange gives during one iteration (a value, or the text of the exception it raised) is a field of `Tick.TickInput`. Only the answers the iteration's path actually consumes matter;
- the clock is one `now` and one `today` per iteration.

One discrepancy decides what the loop can do. The engine reads six settings that the `Settings` table does not declare:

- `max_spread_pct`, `entry_order_type`, `entry_timeout_sec`;
- `allow_market_fallback`, `max_slippage_pct`, `use_exchange_sl_tp`.

The model groups them as `Settings.entry: Option<EntryConfig>`. Every row the repository can create or update has `entry == None`, because `update_settings` ignores keys that are not attributes. Reading `st.max_spread_pct` (app/bot_engine.py:147) then raises `AttributeError`. So, following the code rather than the intended design, every iteration that reaches the spread filter ends in `LOOP_ERROR` and no trade is ever opened. Two lemmas prove this: `TickProperties.UndeclaredEntryFieldsBlockEntries` and `TickProperties.StoredSettingsLackEntryFields`. The entry path is still modelled in full for a row that has those fields (`entry == Some(cfg)`).

A second discrepancy concerns the trade row. The engine passes three keyword arguments that the `Trade` table (app/models.py:39-56) does not declare: `entry_order_id`, `entry_avg_fill` and `entry_fee_usdt` (app/bot_engine.py:239-241). The model keeps them as fields of `Trade`, so that the entry path can state what the engine means to record. The table has no such columns, so a stored row would not hold them. What `TickProperties.EntryTradeFacts` proves about the order id and the fee therefore holds of the model only. `update_trade` cannot name them either: for the table they are no attributes, so the model treats them as unknown keys.

## Model

| member | source | states |
|---|---|---|
| Base.Round6 | app/bot_engine.py:99 | `round(x, 6)` is within half a millionth of x and keeps x's sign |
| Base.Round6OnGrid | app/bot_engine.py:99 | a value that already has six decimals is left unchanged by rounding |
| Models.DefaultSettings | app/models.py:9-36 | the new settings row has id 1 and every declared default (30 s interval, 1% risk, 1.5% SL, 2.5% TP, 10 trades/day, 10 min cooldown, leverage 2, BTC/USDT:USDT, 5m, 10% margin, 2.5% daily loss, trailing on at 0.8%/0.6%) and none of the undeclared entry fields |
| Models.NewTrade | app/models.py:39-56 | a constructed trade has no id, is OPEN with no exit price or PnL and an empty note, and carries exactly the given fields |
| Strategy.Smoothing | app/strategy.py:7 | the EMA factor 2/(period+1) lies in (0, 1] |
| Strategy.EmaSeries | app/strategy.py:4-11 | empty when fewer values than the period; otherwise one value per window end, the first being the mean of the first `period` values |
| Strategy.Ema | app/strategy.py:4-11 | the loop builds exactly the EMA series |
| Strategy.EmaSeriesRecurrence | app/strategy.py:9-10 | each later EMA value is `v*k + previous*(1-k)` of the next input value |
| Strategy.EmaSeriesBounded | app/strategy.py:4-11 | when all inputs lie in [lo, hi], so does every EMA value |
| Strategy.DecideSignal | app/strategy.py:31-40 | HOLD below 60 closes; otherwise BUY exactly when EMA20 > EMA50 and SELL exactly when EMA20 < EMA50 |
| Strategy.FlatMarketHolds | app/strategy.py:31-40 | a constant price series never gives a signal |
| Strategy.Gains | app/strategy.py:19-24 | the summed up-moves are never negative |
| Strategy.Losses | app/strategy.py:19-24 | the summed down-moves are never negative |
| Strategy.RsiIndex | app/strategy.py:25-28 | the RSI lies in [0, 100] and is 100 when there are no losses |
| Strategy.RsiOf | app/strategy.py:14-28 | None exactly when fewer than period+1 values; otherwise a value in [0, 100] |
| Strategy.Rsi | app/strategy.py:14-28 | the loop over the last `period` differences computes exactly the RSI specification |
| Strategy.RsiWithoutLosses | app/strategy.py:25-26 | a window without a down-move gives RSI 100 |
| Exchange.Ticker | app/exchange/bybit.py:25-36 | last, bid and ask are the exchange's values, or 0 where missing; symbol and timestamp are passed through |
| Exchange.BalanceUsdt | app/exchange/bybit.py:41-46 | total USDT, else free USDT, else 0 |
| Exchange.ContainsIff | app/exchange/bybit.py:54 | the substring test holds exactly when the text occurs at some position |
| Exchange.SetLeverage | app/exchange/bybit.py:48-56 | success passes; an error succeeds exactly when it mentions 110043 or "leverage not modified"; any other error is re-raised unchanged |
| Exchange.ParseFill | app/exchange/bybit.py:99-115 | status, id, average and filled copied; fee cost present exactly when the order has a fee with a cost |
| Exchange.Lower | app/exchange/bybit.py:154 | lower-casing keeps the length and maps each letter |
| Exchange.IsFilledStatus | app/exchange/bybit.py:154-155 | a missing status is not filled; `closed`, `filled` and `Filled` are |
| Exchange.FirstWithId | app/exchange/bybit.py:126-128 | None exactly when no order has the id; otherwise the first order with that id |
| Exchange.StatusSafe | app/exchange/bybit.py:119-140 | a found order has the id and comes from a list that was fetched; the first match in the open orders wins, and the closed orders are searched only when the open ones are unavailable or hold no match; None exactly when neither fetched list has the id |
| Exchange.GetOrderStatusSafe | app/exchange/bybit.py:119-140 | the scan of open then closed orders, with fetch errors swallowed, returns the first match of the open list, else of the closed list, else None |
| Exchange.WaitFrom | app/exchange/bybit.py:148-160 | the polling from a given last order returns that order or an order with the id |
| Exchange.WaitFillResult | app/exchange/bybit.py:142-160 | any order returned has the id; with no lookup before the timeout the result is None |
| Exchange.WaitFill | app/exchange/bybit.py:142-160 | the polling loop returns exactly the wait-fill specification over the lookups made |
| Exchange.WaitFillFirstFilled | app/exchange/bybit.py:150-156 | when some lookup shows closed/filled, the order of the first such lookup is returned |
| Exchange.WaitFillTimeout | app/exchange/bybit.py:148-160 | when none does, the result is the order of the last lookup that found one, or None |
| Exchange.TradingStopParams | app/exchange/bybit.py:79-93 | category linear and the market id always; stopLoss and takeProfit exactly when given |
| Exchange.LimitOrderParams | app/exchange/bybit.py:60-64 | postOnly=True exactly when asked, nothing else |
| Store.FieldOfSound | app/repo.py:24 | a payload key that names a field is that field's attribute name |
| Store.FieldOfComplete | app/repo.py:24 | every settable field is found under its attribute name |
| Store.Assign | app/repo.py:25 | setattr changes only the named field, to the given value; id, timestamp and entry configuration untouched |
| Store.PayloadLeavesOtherFields | app/repo.py:23-25 | a field no key names keeps its value |
| Store.PayloadIgnoresUnknownKeys | app/repo.py:23-25 | a payload of unknown keys changes nothing |
| Store.PayloadLastWins | app/repo.py:23-25 | a field takes the value of the last payload item that names it with a value of its type |
| Store.ApplyPayload | app/repo.py:23-25 | the payload loop never changes the row id, the timestamp or the entry configuration |
| Store.GetOrCreateSettingsIn | app/repo.py:11-18 | returns the stored row unchanged, or inserts and returns the default row; trades and events untouched; ids stay well-formed |
| Store.GetOrCreateIdempotent | app/repo.py:11-18 | a second get-or-create changes nothing and returns the same row |
| Store.UpdateSettingsIn | app/repo.py:21-30 | the stored row becomes the returned one, stamped `now`; a field takes the value of the last payload item naming it; a field no key names keeps its value; id and entry configuration kept |
| Store.AddEventIn | app/repo.py:33-38 | appends exactly one event with the next id; the other rows are untouched |
| Store.AddTradeIn | app/repo.py:46-50 | appends the trade under the next id and returns it with that id; the other rows are untouched |
| Store.TradeUpdatesFrame | app/repo.py:61-63 | the engine's own keywords (stop, exit price, PnL, status) change no other column; the stop changes only when named; unknown keys change nothing |
| Store.ApplyTradeUpdates | app/repo.py:61-63 | the keyword loop never changes the id or the undeclared entry-order values |
| Store.TradeUpdateColumnFrame | app/repo.py:61-63 | a column no keyword names keeps its value |
| Store.TradeUpdateLastWins | app/repo.py:61-63 | a column takes the value of the last keyword that names it |
| Store.SetSlUpdate | app/repo.py:61-63 | the trailing update changes only the stop |
| Store.CloseUpdate | app/repo.py:61-63 | the close update sets exit price, PnL and CLOSED and nothing else |
| Store.IndexOfTrade | app/repo.py:58 | None exactly when no row has the id; otherwise a row that has it |
| Store.IndexOfWellFormed | app/repo.py:58 | in a well-formed store, id k is row k-1 |
| Store.UpdateTradeIn | app/repo.py:53-67 | fails ("Trade not found") exactly when the id is absent; otherwise only that row changes, by the updates in order |
| Store.UpdateTradeFrame | app/repo.py:53-67 | an update keeps settings, events, row count and ids, leaves other rows alone, keeps ids well-formed, and with the engine's keywords changes no other column |
| Store.LatestOpenIndex | app/repo.py:75-82 | None exactly when no OPEN trade is on the symbol; otherwise an OPEN one with no later OPEN one |
| Store.GetOpenTradeIn | app/repo.py:75-82 | None exactly when no OPEN trade is on the symbol; otherwise a stored OPEN trade on it with no later OPEN one |
| Store.Reverse | app/repo.py:43 | reversal keeps the length and mirrors the positions |
| Store.LastRowsIsNewestReversed | app/repo.py:41-43 | newest-first LIMIT, reversed, is exactly the last `limit` rows oldest first (all rows for a negative limit) |
| Store.ListEventsIn | app/repo.py:41-43 | the listing is the stored events from position count - min(limit, count) on, oldest first, with consecutive ids ending at the newest |
| Store.ListTradesIn | app/repo.py:70-72 | the listing is the stored trades from position count - min(limit, count) on, oldest first, with consecutive ids ending at the newest |
| Store.Store.constructor | app/repo.py:11-18 | an empty database, before any settings row exists |
| Store.Store.GetOrCreateSettings | app/repo.py:11-18 | the in-place get-or-create does what the specification says, keeping the store valid |
| Store.Store.UpdateSettings | app/repo.py:21-30 | the in-place payload loop produces the specified row and store |
| Store.Store.AddEvent | app/repo.py:33-38 | the in-place append is the specified one and returns the new row |
| Store.Store.AddTrade | app/repo.py:46-50 | the in-place insertion is the specified one and returns the row with its id |
| Store.Store.UpdateTrade | app/repo.py:53-67 | on a missing id the store is unchanged and the error is raised; otherwise the in-place loop gives the specified row and store |
| Store.Store.GetOpenTrade | app/repo.py:75-82 | None exactly when no OPEN trade is on the symbol; otherwise a stored OPEN trade with the highest id among them |
| Risk.SpreadPct | app/bot_engine.py:65-70 | 999 for a missing side; otherwise spread / mid in percent |
| Risk.SpreadOfQuotedBook | app/bot_engine.py:65-70 | on a two-sided uncrossed book the spread lies in [0, 200) and is 0 exactly when bid = ask |
| Risk.CooldownOk | app/bot_engine.py:60-63 | passes when there was no trade; blocked at or before the last trade's instant when the cooldown is positive |
| Risk.CalcQty | app/bot_engine.py:72-99 | the size is never negative and is 0 for a non-positive stop distance or price |
| Risk.CalcQtyTighterLimit | app/bot_engine.py:88-99 | with a positive stop distance the size is the smaller of the risk and margin limits, rounded, or 0 if negative |
| Risk.CalcQtyExample | app/bot_engine.py:72-99 | 10000 USDT, 1% risk, 1.5% stop, 5x, 10% margin at 50000 gives 0.1, capped by margin |
| Risk.CooldownBoundary | app/bot_engine.py:60-63 | the cooldown has passed exactly `minutes` after the last trade, not a microsecond earlier |
| Risk.CooldownMonotone | app/bot_engine.py:60-63 | once passed, it stays passed |
| Risk.DailyLossHit | app/bot_engine.py:110-111 | the daily-loss gate fires only on a positive balance, and never without a loss when the limit is positive |
| Risk.ExitReasonFor | app/bot_engine.py:275-279 | no exit unless TP or SL is hit; TP whenever TP is hit, SL only when SL alone is hit |
| Risk.Pnl | app/bot_engine.py:282-285 | for a positive size the PnL is 0 exactly at the entry price; a buy gains exactly when the price rose, a sell exactly when it fell |
| Risk.Bracket | app/bot_engine.py:227-228 | with positive percentages the stop is on the losing side of the fill and the target on the winning side, for both sides |
| Risk.BracketedExit | app/bot_engine.py:227-228 | on a bracketed trade a TP exit is a gain, an SL exit a loss, and the two are never hit together |
| Risk.FillPrice | app/bot_engine.py:217-218 | a missing or zero average falls back to the reference price |
| Risk.SlippagePct | app/bot_engine.py:221 | slippage is never negative and 0 when the fill equals the reference |
| Risk.TrailStep | app/bot_engine.py:298-332 | raises exactly for a zero entry; a stop is written only with a best price |
| Risk.TrailUnarmed | app/bot_engine.py:304-307 | below the activation profit nothing changes, not even the best price |
| Risk.TrailBestMonotone | app/bot_engine.py:309-311 | once armed the best price only rises for a buy and only falls for a sell, and is the price or the old best |
| Risk.TrailNeverLoosens | app/bot_engine.py:313-314 | a stop is written only when strictly tighter, and it is `trailing_pct` behind the best price |
| Risk.TrailArmed | app/bot_engine.py:309-332 | once armed: the best price becomes the price or the more extreme of it and the old best, and the stop `trailing_pct` behind it is written exactly when strictly tighter, for both sides |
| Risk.TrailExample | app/bot_engine.py:298-317 | entry 100, stop 98.5, price 100.9 with 0.8%/0.6% moves the stop to 100.2946 |
| Tick.InitialEngine | app/bot_engine.py:18-29 | a new engine is stopped, with no trades, no PnL and no best price, on today's date |
| Tick.PauseSec | app/bot_engine.py:114-265 | no pause after an entry, 3 s after an error, the loop interval otherwise |
| Tick.ResetDaily | app/bot_engine.py:53-58 | a new day clears the trade count and the day's PnL; the same day changes nothing |
| Tick.Fail | app/bot_engine.py:262-265 | an exception logs LOOP_ERROR and keeps everything written before it |
| Tick.TrailSpec | app/bot_engine.py:298-332 | trailing ends monitored or in error, changes only the best price of the engine and adds no trade |
| Tick.ExitSpec | app/bot_engine.py:275-296 | the exit ends monitored or in error; without a hit nothing changes; only the day's PnL of the engine changes; no trade is added |
| Tick.ManageSpec | app/bot_engine.py:267-296 | managing ends monitored or in error, changes only the PnL and best price of the engine (not the best price with trailing off) and adds no trade |
| Tick.EntryFill | app/bot_engine.py:172-213 | a market entry uses the order's own fill; a timeout is reported only for a limit order without fallback |
| Tick.RecordEntrySpec | app/bot_engine.py:215-260 | the fill is recorded as the next OPEN trade, bracketed around the fill; the counters advance and the best price is reset |
| Tick.PlaceEntrySpec | app/bot_engine.py:172-260 | the order ends in an entry, a timeout (only for a limit order without fallback) or an error; anything but an entry leaves the engine and the trades alone |
| Tick.EntrySpec | app/bot_engine.py:134-260 | without the undeclared entry fields no entry happens; only an entry changes the engine or the trades, with a positive size; it never ends as a gate or monitored |
| Tick.SleepSpec | app/bot_engine.py:114-262 | the closing sleep: a non-negative interval changes nothing; a negative one turns any outcome but an entry or an error into LOOP_ERROR on top of the writes made |
| Tick.TickBody | app/bot_engine.py:103-262 | the iteration up to its sleep keeps the running flag and sets the day to today |
| Tick.TickSpec | app/bot_engine.py:103-265 | the iteration keeps the running flag and sets the day to today; with a negative interval it ends in an entry or in LOOP_ERROR |
| Tick.RunSpec | app/bot_engine.py:101-265 | the loop keeps the running flag, does nothing when stopped, and ends on the day of its last iteration |
| Tick.StartSpec | app/bot_engine.py:31-38 | start sets the flag and logs BOT_STARTED once; when already running it does nothing |
| Tick.StopSpec | app/bot_engine.py:40-43 | stop clears the flag and always logs BOT_STOPPED |
| TickProperties.AddEventEvolves | app/repo.py:33-38 | adding an event only grows the store |
| TickProperties.AddTradeEvolves | app/repo.py:46-50 | adding a trade only grows the store |
| TickProperties.FailEvolves | app/bot_engine.py:262-265 | the error branch only adds an event |
| TickProperties.SleepEvolves | app/bot_engine.py:114-263 | the closing sleep leaves the trades, settings and engine alone, adds at most the LOOP_ERROR event, and never touches an iteration that opened a trade |
| TickProperties.TrailSpecEvolves | app/bot_engine.py:298-332 | trailing keeps the invariants, keeps the trade OPEN, touches only the best price of the engine, and only tightens the stop |
| TickProperties.ExitEffects | app/bot_engine.py:275-296 | no hit: nothing changes; a hit with a successful close order: the row is closed at the price with its PnL, TRADE_CLOSED is logged and the PnL is booked; a failing close order: LOOP_ERROR with nothing written |
| TickProperties.ExitSpecEvolves | app/bot_engine.py:275-296 | the exit keeps the invariants and changes only the day's PnL in the engine |
| TickProperties.ManageSpecEvolves | app/bot_engine.py:267-296 | managing keeps the invariants, adds no trade, leaves the counters alone and ends monitored or in error |
| TickProperties.EntryTradeFacts | app/bot_engine.py:227-242 | the stored entry is OPEN on the configured symbol, bracketed around the fill, with the order id and fee |
| TickProperties.FilledEntryOpens | app/bot_engine.py:215-260 | a filled order always records the trade, whatever the slippage; SLIPPAGE_HIGH is logged first exactly when the slippage is above the limit |
| TickProperties.LimitEntryTimeout | app/bot_engine.py:184-209 | an unfilled limit order ends in ENTRY_TIMEOUT without fallback, in the fallback order's fill with it, or in the fallback's error |
| TickProperties.LimitEntryFilled | app/bot_engine.py:184-213 | a limit order first shown filled at lookup k is recorded at that lookup's average |
| TickProperties.PlaceEntryEvolves | app/bot_engine.py:172-260 | from the order on, the invariants are kept and only a recorded entry adds a trade, exactly one |
| TickProperties.RecordEntryEvolves | app/bot_engine.py:215-260 | recording a fill appends exactly the new OPEN trade and keeps one open trade per symbol |
| TickProperties.EntrySpecEvolves | app/bot_engine.py:134-260 | the entry path keeps the invariants and only an entry adds a trade |
| TickProperties.TickGates | app/bot_engine.py:109-123 | daily loss is tested first, then the trade cap, then the cooldown, each exactly under its condition; a gated iteration writes no trade and ends with its gate, or with LOOP_ERROR when the interval is negative |
| TickProperties.BodyGates | app/bot_engine.py:109-123 | before the sleep, the gates fire in order exactly under their conditions and write no trade |
| TickProperties.OpenTradeOnlyMonitored | app/bot_engine.py:125-132 | with a trade open and the gates passed, the iteration only monitors it: no entry and no counter change |
| TickProperties.TickInvariants | app/bot_engine.py:101-265 | every iteration keeps ids well-formed and one OPEN trade per symbol, only grows the store, and adds a trade exactly when it opens one |
| TickProperties.OpenedTradeFacts | app/bot_engine.py:101-260 | an entry happens only with all gates passed and nothing open on the symbol; the new row is the bracketed OPEN trade and the counters advance |
| TickProperties.NoEntryNoNewTrade | app/bot_engine.py:101-265 | an iteration without an entry adds no trade and no trade count |
| TickProperties.BodyInvariants | app/bot_engine.py:101-265 | the iteration body, before the sleep, keeps the same store invariants as the whole iteration |
| TickProperties.BodyOpenedFacts | app/bot_engine.py:101-260 | the iteration body opens a trade only under the same conditions and with the same row as the whole iteration |
| TickProperties.BodyNoEntryNoNewTrade | app/bot_engine.py:101-265 | the iteration body without an entry adds no trade and no trade count |
| TickProperties.UndeclaredEntryFieldsBlockEntries | app/bot_engine.py:147 | with the settings row as the table declares it, no iteration can open a trade |
| TickProperties.StoredSettingsLackEntryFields | app/repo.py:11-30 | every row the repository creates or updates lacks the undeclared entry fields |
| TickProperties.CooldownAfterEntryBlocksMonitoring | app/bot_engine.py:121-132 | for `cooldown_minutes` after an entry, the new trade is neither managed nor joined by another |
| TickProperties.RolloverClearsDailyGates | app/bot_engine.py:53-58 | on a new day, with a positive trade cap and a positive loss limit, neither the trade cap nor the daily-loss gate stops that iteration |
| TickProperties.StaleStopExample | app/bot_engine.py:272-276 | the exit check uses the stop the trade was read with, so a stop trailed above the price still leaves the trade open that iteration |
| TickProperties.StartIdempotent | app/bot_engine.py:31-33 | starting twice is starting once |
| TickProperties.RunInvariants | app/bot_engine.py:101-102 | any number of iterations keeps the store invariants and never changes the running flag |
| Engine.BotEngine.constructor | app/bot_engine.py:18-29 | the fields start as a new engine's |
| Engine.BotEngine.Start | app/bot_engine.py:31-38 | start as specified |
| Engine.BotEngine.Stop | app/bot_engine.py:40-43 | stop as specified |
| Engine.BotEngine.Status | app/bot_engine.py:45-51 | reports the flag, the day's trade count and PnL and the last trade time |
| Engine.BotEngine.ResetDailyIfNeeded | app/bot_engine.py:53-58 | updates the fields as the daily reset specifies |
| Engine.BotEngine.ApplyTrailing | app/bot_engine.py:298-332 | the in-place trailing leaves the engine and store of the trailing specification, or its exception |
| Engine.BotEngine.WriteTrailedStop | app/bot_engine.py:314-317 | writes the stop and TRAIL_SL_UPDATED, or raises with the store unchanged |
| Engine.BotEngine.ManageOpenTrade | app/bot_engine.py:267-296 | the in-place management of the open trade is the managing specification |
| Engine.BotEngine.CloseIfHit | app/bot_engine.py:275-296 | the in-place exit is the exit specification |
| Engine.BotEngine.TryEntry | app/bot_engine.py:134-170 | the in-place entry path is the entry specification |
| Engine.BotEngine.ExecuteEntryOrder | app/bot_engine.py:172-213 | the order placement and polling yield exactly the specified fill or timeout, changing nothing |
| Engine.BotEngine.PlaceEntry | app/bot_engine.py:172-260 | from the order on, the in-place steps are the specification |
| Engine.BotEngine.RecordEntry | app/bot_engine.py:220-260 | the writes after a fill are the specified ones |
| Engine.BotEngine.LogSlippage | app/bot_engine.py:220-224 | logs SLIPPAGE_HIGH exactly as the slippage specification says |
| Engine.BotEngine.LogTradingStop | app/bot_engine.py:246-254 | with exchange SL/TP on, logs EXCHANGE_TPSL_SET or EXCHANGE_TPSL_FAIL as the call went; otherwise nothing |
| Engine.BotEngine.Tick | app/bot_engine.py:103-265 | one in-place iteration leaves the engine and store of the iteration specification, including the failing sleep, followed by the specified pause |
| Engine.BotEngine.IterationBody | app/bot_engine.py:103-262 | the in-place iteration up to its sleep is the body specification, and returns the settings row it read |
| Engine.BotEngine.Run | app/bot_engine.py:101-265 | the loop is the specified run over its inputs and keeps the store valid, well-formed, with one OPEN trade per symbol, only grown |

## Left out

- Threads, the waiting done by `time.sleep` and the daemon thread. Only the error a negative `loop_interval_sec` makes `time.sleep` raise is modelled (`Tick.SleepSpec`). `Run` iterates over a finite sequence of per-iteration inputs while the flag is set. A `stop` from another thread between iterations is not modelled; `Run` keeps the flag it started with.
- Clock reads: one `now` (microseconds) and one `today` per iteration. The source reads the clock several times per iteration.
- Event message texts and number formatting (`f"{x:.4f}"`, `str(e)`). Events keep level and type, and TRADE_CLOSED keeps its TP/SL reason. An exception's message is carried only as the outcome's text.
- Floating point: prices and sizes are exact reals. `round(x, 6)` is modelled half-to-even on reals.
- The ccxt transport, FastAPI routes, configuration and database sessions. Exchange answers are inputs, and the database is the `Store` object.
- `cancel_order` after a limit timeout: its result and its exception are ignored by the source, so the model drops the call.
- The `entry_timeout_sec` clock in `wait_fill`: the lookups made before the timeout are given as a sequence.
- `_market_id`: the market id is a parameter of `TradingStopParams`. `set_trading_stop`'s `None` arguments are modelled, although the engine always passes both.
- SL/TP from the reference price (app/bot_engine.py:169-170): overwritten before use, so not modelled.
- An order dict missing its `id` key (a `KeyError` at app/bot_engine.py:189 and 196) and a falsy empty order found during polling: not modelled.
- Lower-casing of non-ASCII letters in order statuses: only ASCII is folded.
- The `id` payload key of `update_settings` (it would renumber the row) and payload values of the wrong type: both are ignored by the model.
- Store.UpdateSettingsIn: a payload key that names an attribute of the row other than a column (a method or class attribute such as `metadata`) passes the `hasattr` test at app/repo.py:24. The assignment that follows may then raise and abort the whole update; the model ignores such a key and commits the rest.
- Store.UpdateTradeIn: the `id` keyword of `update_trade` is not modelled. It would renumber the row and break the insertion-order ids. Every other column of the Trade table can be named; the engine itself names only `sl`, `exit_price`, `pnl_usdt` and `status` (app/bot_engine.py:292, 316, 331).
- Trade: `entry_order_id`, `entry_avg_fill` and `entry_fee_usdt` are fields of the model's trade, though the table declares no such columns and a stored row would not hold them.
- `ohlcv` rows are given as their close prices.
- The code after `return "HOLD"` in `decide_signal` (app/strategy.py:42-54) is unreachable and not modelled.
- `_ema` with period 0: it divides by zero and is never called so; the model requires a positive period.
- `best_price` is reset only when an entry is recorded (app/bot_engine.py:260), as in the source. It is not reset when a trade closes.
- Store.Store.ListEvents: states nothing of its own; its contract is that of `Store.ListEventsIn`.
- Store.Store.ListTrades: states nothing of its own; its contract is that of `Store.ListTradesIn`.
- Engine.BotEngine.Run: does not model the flag being cleared by `stop` during the loop.
