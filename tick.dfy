/**
 * One iteration of the engine's loop as a function from the engine's fields, the
 * store and the world's answers during that iteration to the new fields, the new
 * store and what the iteration did. An exception anywhere in the iteration keeps
 * what was already written and logs LOOP_ERROR.
 */
module Tick {
  import opened Base
  import opened Models
  import Strategy
  import opened Exchange
  import opened Store
  import opened Risk

  /** The fields of the engine object. */
  datatype EngineState = EngineState(
    running: bool,
    lastTradeTime: Option<Instant>,
    tradesToday: int,
    dayStart: Date,
    dailyPnl: real,
    bestPrice: Option<real>)

  /** A fresh engine created on day `today`. */
  function InitialEngine(today: Date): (e: EngineState)
    ensures !e.running && e.lastTradeTime.None? && e.tradesToday == 0
    ensures e.dayStart == today && e.dailyPnl == 0.0 && e.bestPrice.None?
  {
    EngineState(false, None, 0, today, 0.0, None)
  }

  /**
   * What the clock and the exchange answer during one iteration, in call order.
   * Only the answers the iteration's path consumes matter.
   */
  datatype TickInput = TickInput(
    today: Date,
    now: Instant,
    gateBalance: Fallible<RawBalance>,
    candles: Fallible<seq<real>>,
    ticker: Fallible<RawTicker>,
    leverage: CallResult,
    sizingBalance: Fallible<RawBalance>,
    entryOrder: Fallible<RawOrder>,
    polls: seq<PollInput>,
    fallbackOrder: Fallible<RawOrder>,
    tradingStop: CallResult,
    closeOrder: CallResult)

  /** How the iteration ended. */
  datatype Outcome =
    | DailyLossLimit
    | TradeCapReached
    | CoolingDown
    | Monitored(exit: Option<ExitReason>)
    | NoSignal
    | SpreadTooWide
    | QtyZero
    | EntryTimedOut
    | Opened(trade: Trade)
    | LoopError(msg: string)

  datatype Step = Step(eng: EngineState, db: Db, outcome: Outcome)

  /** The pause before the next iteration, in seconds: none after an entry, 3 after an error. */
  function PauseSec(o: Outcome, loopIntervalSec: int): (p: int)
    ensures o.Opened? ==> p == 0
    ensures o.LoopError? ==> p == 3
    ensures !o.Opened? && !o.LoopError? ==> p == loopIntervalSec
  {
    match o
    case Opened(_) => 0
    case LoopError(_) => 3
    case _ => loopIntervalSec
  }

  /** `_reset_daily_if_needed`: a new day clears the trade count and the day's PnL. */
  function ResetDaily(eng: EngineState, today: Date): (e: EngineState)
    ensures e.dayStart == today
    ensures e.running == eng.running && e.lastTradeTime == eng.lastTradeTime && e.bestPrice == eng.bestPrice
    ensures today != eng.dayStart ==> e.tradesToday == 0 && e.dailyPnl == 0.0
    ensures today == eng.dayStart ==> e == eng
  {
    if today != eng.dayStart then eng.(dayStart := today, tradesToday := 0, dailyPnl := 0.0) else eng
  }

  /** The `except` branch: log LOOP_ERROR, keep everything written so far. */
  function Fail(eng: EngineState, db: Db, now: Instant, msg: string): (s: Step)
    ensures s.eng == eng && s.db == AddEventIn(db, Error, LoopErrorEvent, now) && s.outcome == LoopError(msg)
  {
    Step(eng, AddEventIn(db, Error, LoopErrorEvent, now), LoopError(msg))
  }

  /** The id `update_trade` is called with for a stored trade. */
  function RowId(t: Trade): int
  {
    if t.id.Some? then t.id.value else 0
  }

  /** `_apply_trailing` at `price` for the open trade `t`. */
  function TrailSpec(eng: EngineState, db: Db, t: Trade, st: Settings, price: real, now: Instant): (s: Step)
    ensures s.outcome == Monitored(None) || s.outcome.LoopError?
    ensures s.eng == eng.(bestPrice := s.eng.bestPrice)
    ensures s.db.settings == db.settings && |s.db.trades| == |db.trades|
  {
    match TrailStep(t.side, t.entry, t.sl, eng.bestPrice, price, st.trailingActivationPct, st.trailingPct)
    case Err(m) => Fail(eng, db, now, m)
    case Ok(tr) =>
      var e := eng.(bestPrice := tr.best);
      match tr.newSl
      case None => Step(e, db, Monitored(None))
      case Some(x) =>
        match UpdateTradeIn(db, RowId(t), [SetSl(x)])
        case Err(m) => Fail(e, db, now, m)
        case Ok((db1, _)) => Step(e, AddEventIn(db1, Info, TrailSlUpdated, now), Monitored(None))
  }

  /** The exit half of `_manage_open_trade`, tested against the stop `t` was read with. */
  function ExitSpec(eng: EngineState, db: Db, t: Trade, price: real, inp: TickInput): (s: Step)
    ensures s.outcome.Monitored? || s.outcome.LoopError?
    ensures s.outcome == Monitored(None) ==> s == Step(eng, db, Monitored(None))
    ensures s.eng == eng.(dailyPnl := s.eng.dailyPnl)
    ensures s.db.settings == db.settings && |s.db.trades| == |db.trades|
  {
    match ExitReasonFor(t.side, price, t.tp, t.sl)
    case None => Step(eng, db, Monitored(None))
    case Some(reason) =>
      var pnl := Pnl(t.side, price, t.entry, t.qty);
      match inp.closeOrder
      case Raised(m) => Fail(eng, db, inp.now, m)
      case Returned =>
        match UpdateTradeIn(db, RowId(t), [SetExitPrice(Some(price)), SetPnlUsdt(Some(pnl)), SetStatus(Closed)])
        case Err(m) => Fail(eng, db, inp.now, m)
        case Ok((db1, _)) =>
          Step(eng.(dailyPnl := eng.dailyPnl + pnl), AddEventIn(db1, Info, TradeClosed(reason), inp.now),
               Monitored(Some(reason)))
  }

  /** `_manage_open_trade`: read the price, trail if enabled, then test the exit. */
  function ManageSpec(eng: EngineState, db: Db, st: Settings, t: Trade, inp: TickInput): (s: Step)
    ensures s.outcome.Monitored? || s.outcome.LoopError?
    ensures s.eng == eng.(dailyPnl := s.eng.dailyPnl, bestPrice := s.eng.bestPrice)
    ensures !st.trailingEnabled ==> s.eng.bestPrice == eng.bestPrice
    ensures s.db.settings == db.settings && |s.db.trades| == |db.trades|
  {
    match inp.ticker
    case Err(m) => Fail(eng, db, inp.now, m)
    case Ok(raw) =>
      var price := Ticker(t.symbol, raw).last;
      var s := if st.trailingEnabled then TrailSpec(eng, db, t, st, price, inp.now) else Step(eng, db, Monitored(None));
      if s.outcome.LoopError? then s else ExitSpec(s.eng, s.db, t, price, inp)
  }

  /** How the entry order ended: filled (by the order named), or timed out without fallback. */
  datatype EntryResult = Filled(order: RawOrder, fill: Fill) | TimedOut

  /** The ENTRY EXECUTION block up to the fill. */
  function EntryFill(cfg: EntryConfig, inp: TickInput): (r: Fallible<EntryResult>)
    ensures cfg.entryOrderType == "market" ==>
              r == (if inp.entryOrder.Ok? then Ok(Filled(inp.entryOrder.value, ParseFill(inp.entryOrder.value)))
                    else Err(inp.entryOrder.msg))
    ensures r == Ok(TimedOut) ==> cfg.entryOrderType != "market" && !cfg.allowMarketFallback
  {
    match inp.entryOrder
    case Err(m) => Err(m)
    case Ok(o) =>
      if cfg.entryOrderType == "market" then Ok(Filled(o, ParseFill(o)))
      else
        var waited := WaitFillResult(inp.polls, o.id);
        var parsed := ParseFill(if waited.Some? then waited.value else EmptyOrder);
        if IsFilledStatus(parsed.status) then Ok(Filled(o, parsed))
        else if cfg.allowMarketFallback then
          match inp.fallbackOrder
          case Err(m) => Err(m)
          case Ok(mo) => Ok(Filled(mo, ParseFill(mo)))
        else Ok(TimedOut)
  }

  /** The trade the entry block records for a fill at `fill` by `order`. */
  function EntryTrade(st: Settings, side: Side, qty: real, fill: real, order: RawOrder, feeCost: Option<real>, now: Instant): Trade
  {
    var (sl, tp) := Bracket(side, fill, st.slPct, st.tpPct);
    NewTrade(now, st.symbol, side, qty, fill, sl, tp, order.id,
             if fill != 0.0 then Some(fill) else None, feeCost)
  }

  /** SLIPPAGE_HIGH when the fill is further from the reference than the limit allows. */
  function SlippageLog(db: Db, cfg: EntryConfig, fill: real, reference: real, now: Instant): Db
  {
    if SlippagePct(fill, reference) > cfg.maxSlippagePct then AddEventIn(db, Warn, SlippageHigh, now) else db
  }

  /** With exchange SL/TP on: EXCHANGE_TPSL_SET when the call returns, EXCHANGE_TPSL_FAIL when it raises. */
  function TradingStopLog(db: Db, cfg: EntryConfig, tradingStop: CallResult, now: Instant): Db
  {
    if !cfg.useExchangeSlTp then db
    else if tradingStop.Returned? then AddEventIn(db, Info, ExchangeTpslSet, now)
    else AddEventIn(db, Warn, ExchangeTpslFail, now)
  }

  /** After the fill: slippage warning, the trade, TRADE_OPENED, exchange SL/TP, counters. */
  function RecordEntrySpec(eng: EngineState, db: Db, st: Settings, cfg: EntryConfig, side: Side, reference: real,
                           qty: real, fill: real, order: RawOrder, feeCost: Option<real>, inp: TickInput): (s: Step)
    ensures s.outcome.Opened? && s.db.trades == db.trades + [s.outcome.trade]
    ensures s.outcome.trade.id == Some(|db.trades| + 1) && s.outcome.trade.status == Open
    ensures s.outcome.trade.entry == fill && (s.outcome.trade.sl, s.outcome.trade.tp) == Bracket(side, fill, st.slPct, st.tpPct)
    ensures s.eng == eng.(lastTradeTime := Some(inp.now), tradesToday := eng.tradesToday + 1, bestPrice := None)
    ensures s.db.settings == db.settings
  {
    var db1 := SlippageLog(db, cfg, fill, reference, inp.now);
    var (db2, saved) := AddTradeIn(db1, EntryTrade(st, side, qty, fill, order, feeCost, inp.now));
    var db3 := AddEventIn(db2, Info, TradeOpened, inp.now);
    Step(eng.(lastTradeTime := Some(inp.now), tradesToday := eng.tradesToday + 1, bestPrice := None),
         TradingStopLog(db3, cfg, inp.tradingStop, inp.now), Opened(saved))
  }

  /** From the entry order to the counter updates. */
  function PlaceEntrySpec(eng: EngineState, db: Db, st: Settings, cfg: EntryConfig, side: Side,
                          reference: real, qty: real, inp: TickInput): (s: Step)
    ensures s.outcome.Opened? || s.outcome == EntryTimedOut || s.outcome.LoopError?
    ensures s.outcome == EntryTimedOut ==> cfg.entryOrderType != "market" && !cfg.allowMarketFallback
    ensures !s.outcome.Opened? ==> s.eng == eng && s.db.trades == db.trades
    ensures s.db.settings == db.settings
  {
    match EntryFill(cfg, inp)
    case Err(m) => Fail(eng, db, inp.now, m)
    case Ok(TimedOut) => Step(eng, AddEventIn(db, Info, EntryTimeout, inp.now), EntryTimedOut)
    case Ok(Filled(order, f)) =>
      RecordEntrySpec(eng, db, st, cfg, side, reference, qty, FillPrice(f.average, reference), order, f.feeCost, inp)
  }

  /** The side a BUY or SELL signal trades. */
  function SideOf(sig: Strategy.Signal): Side
  {
    if sig == Strategy.Buy then Buy else Sell
  }

  /** Signal, spread filter, leverage and sizing, then the entry. */
  function EntrySpec(eng: EngineState, db: Db, st: Settings, inp: TickInput): (s: Step)
    ensures st.entry.None? ==> !s.outcome.Opened?
    ensures !s.outcome.Opened? ==> s.eng == eng && s.db.trades == db.trades
    ensures s.outcome.Opened? ==> s.outcome.trade.qty > 0.0
    ensures !s.outcome.Monitored? && s.outcome != DailyLossLimit && s.outcome != TradeCapReached && s.outcome != CoolingDown
    ensures s.db.settings == db.settings
  {
    match inp.candles
    case Err(m) => Fail(eng, db, inp.now, m)
    case Ok(closes) =>
      var sig := Strategy.DecideSignal(closes);
      if sig == Strategy.Hold then Step(eng, db, NoSignal)
      else
        match inp.ticker
        case Err(m) => Fail(eng, db, inp.now, m)
        case Ok(raw) =>
          var tv := Ticker(st.symbol, raw);
          var sp := SpreadPct(tv.bid, tv.ask);
          match st.entry
          case None => Fail(eng, db, inp.now, "'Settings' object has no attribute 'max_spread_pct'")
          case Some(cfg) =>
            if sp > cfg.maxSpreadPct then Step(eng, AddEventIn(db, Info, SpreadSkip, inp.now), SpreadTooWide)
            else
              match SetLeverage(inp.leverage)
              case Err(m) => Fail(eng, db, inp.now, m)
              case Ok(_) =>
                match inp.sizingBalance
                case Err(m) => Fail(eng, db, inp.now, m)
                case Ok(b) =>
                  var qty := CalcQty(tv.last, BalanceUsdt(b), st.riskPct, st.slPct, st.leverage, st.maxMarginPct);
                  if qty <= 0.0 then Step(eng, AddEventIn(db, Warn, QtyZeroSkip, inp.now), QtyZero)
                  else
                    var side := SideOf(sig);
                    var reference := if side == Buy then tv.ask else tv.bid;
                    PlaceEntrySpec(eng, db, st, cfg, side, reference, qty, inp)
  }

  /** The message of the ValueError `time.sleep` raises for a negative length. */
  const SleepErrorMsg: string := "sleep length must be non-negative"

  /**
   * The `time.sleep(st.loop_interval_sec)` that ends every branch but an entry,
   * inside the `try`: a negative interval raises, and the iteration logs LOOP_ERROR
   * on top of what the branch wrote.
   */
  function SleepSpec(s: Step, loopIntervalSec: int, now: Instant): (r: Step)
    ensures s.outcome.Opened? || s.outcome.LoopError? || loopIntervalSec >= 0 ==> r == s
    ensures !s.outcome.Opened? && !s.outcome.LoopError? && loopIntervalSec < 0 ==>
              r == Fail(s.eng, s.db, now, SleepErrorMsg)
  {
    if s.outcome.Opened? || s.outcome.LoopError? || loopIntervalSec >= 0 then s
    else Fail(s.eng, s.db, now, SleepErrorMsg)
  }

  /** One loop iteration: its body, then the sleep that ends it. */
  function TickSpec(eng: EngineState, db: Db, inp: TickInput): (s: Step)
    ensures s.eng.running == eng.running && s.eng.dayStart == inp.today
    ensures SettingsOrDefault(db, inp.now).loopIntervalSec < 0 ==> s.outcome.Opened? || s.outcome.LoopError?
  {
    SleepSpec(TickBody(eng, db, inp), SettingsOrDefault(db, inp.now).loopIntervalSec, inp.now)
  }

  /** The body of one loop iteration, up to the sleep. */
  function TickBody(eng: EngineState, db: Db, inp: TickInput): (s: Step)
    ensures s.eng.running == eng.running && s.eng.dayStart == inp.today
  {
    var e := ResetDaily(eng, inp.today);
    var (db1, st) := GetOrCreateSettingsIn(db, inp.now);
    match inp.gateBalance
    case Err(m) => Fail(e, db1, inp.now, m)
    case Ok(b) =>
      if DailyLossHit(BalanceUsdt(b), e.dailyPnl, st.maxDailyLossPct) then
        Step(e, AddEventIn(db1, Warn, DailyLossLimitHit, inp.now), DailyLossLimit)
      else if e.tradesToday >= st.maxTradesPerDay then Step(e, db1, TradeCapReached)
      else if !CooldownOk(e.lastTradeTime, inp.now, st.cooldownMinutes) then Step(e, db1, CoolingDown)
      else
        match GetOpenTradeIn(db1, st.symbol)
        case Some(t) => ManageSpec(e, db1, st, t, inp)
        case None => EntrySpec(e, db1, st, inp)
  }

  /** The loop while `running`: one iteration per input. */
  function RunSpec(eng: EngineState, db: Db, inputs: seq<TickInput>): (r: (EngineState, Db))
    ensures r.0.running == eng.running
    ensures !eng.running ==> r == (eng, db)
    ensures eng.running && inputs != [] ==> r.0.dayStart == inputs[|inputs| - 1].today
    decreases |inputs|
  {
    if !eng.running || inputs == [] then (eng, db)
    else
      var s := TickSpec(eng, db, inputs[0]);
      RunSpec(s.eng, s.db, inputs[1..])
  }

  /** `start`: set the flag and log BOT_STARTED, unless already running. */
  function StartSpec(eng: EngineState, db: Db, now: Instant): (r: (EngineState, Db))
    ensures r.0.running
    ensures eng.running ==> r == (eng, db)
    ensures !eng.running ==> r.0 == eng.(running := true) && r.1 == AddEventIn(db, Info, BotStarted, now)
  {
    if eng.running then (eng, db) else (eng.(running := true), AddEventIn(db, Info, BotStarted, now))
  }

  /** `stop`: clear the flag and log BOT_STOPPED. */
  function StopSpec(eng: EngineState, db: Db, now: Instant): (r: (EngineState, Db))
    ensures !r.0.running && r.0 == eng.(running := false)
    ensures r.1 == AddEventIn(db, Info, BotStopped, now)
  {
    (eng.(running := false), AddEventIn(db, Info, BotStopped, now))
  }
}
