/**
 * The engine object: its fields, `start`/`stop`/`status`, the daily reset, and
 * the loop body working on a `Store` in place. Each method is proved to do what
 * the matching function of `Tick` says, so the properties proved there hold of it.
 */
module Engine {
  import opened Base
  import opened Models
  import Strategy
  import opened Exchange
  import opened Store
  import opened Risk
  import opened Tick
  import opened TickProperties

  /** What `status` reports. */
  datatype StatusView = StatusView(running: bool, tradesToday: int, dailyPnlUsdt: real, lastTradeTime: Option<Instant>)

  class BotEngine {
    var running: bool
    var lastTradeTime: Option<Instant>
    var tradesToday: int
    var dayStart: Date
    var dailyPnl: real
    /** The best price seen since the last entry: the maximum for a buy, the minimum for a sell. */
    var bestPrice: Option<real>

    function State(): EngineState
      reads this
    {
      EngineState(running, lastTradeTime, tradesToday, dayStart, dailyPnl, bestPrice)
    }

    constructor (today: Date)
      ensures State() == InitialEngine(today)
    {
      running, lastTradeTime, tradesToday := false, None, 0;
      dayStart, dailyPnl, bestPrice := today, 0.0, None;
    }

    /** `start`: a second start while running does nothing. */
    method Start(store: Store, now: Instant)
      modifies this, store
      ensures (State(), store.State()) == StartSpec(old(State()), old(store.State()), now)
    {
      if running {
        return;
      }
      running := true;
      var _ := store.AddEvent(Info, BotStarted, now);
    }

    /** `stop`: clears the flag and always logs BOT_STOPPED. */
    method Stop(store: Store, now: Instant)
      modifies this, store
      ensures (State(), store.State()) == StopSpec(old(State()), old(store.State()), now)
    {
      running := false;
      var _ := store.AddEvent(Info, BotStopped, now);
    }

    /** `status`: the flag, the day's trade count and PnL, and the last trade time. */
    function Status(): (r: StatusView)
      reads this
      ensures r.running == running && r.tradesToday == tradesToday
      ensures r.dailyPnlUsdt == dailyPnl && r.lastTradeTime == lastTradeTime
    {
      StatusView(running, tradesToday, dailyPnl, lastTradeTime)
    }

    /** `_reset_daily_if_needed`. */
    method ResetDailyIfNeeded(today: Date)
      modifies this
      ensures State() == ResetDaily(old(State()), today)
    {
      if today != dayStart {
        dayStart := today;
        tradesToday := 0;
        dailyPnl := 0.0;
      }
    }

    /** `_apply_trailing`; an exception is returned as its message, to be logged by the loop. */
    method ApplyTrailing(store: Store, t: Trade, st: Settings, price: real, now: Instant) returns (err: Option<string>)
      modifies this, store
      ensures var s := TrailSpec(old(State()), old(store.State()), t, st, price, now);
              if err.Some? then s == Fail(State(), store.State(), now, err.value)
              else s == Step(State(), store.State(), Monitored(None))
    {
      if t.entry == 0.0 {
        return Some("float division by zero");
      }
      var profitPct := ProfitPct(t.side, t.entry, price);
      if profitPct < st.trailingActivationPct {
        return None;
      }
      bestPrice := Some(BestAfter(t.side, bestPrice, price));
      var newSl := TrailCandidate(t.side, bestPrice.value, st.trailingPct);
      if !Tighter(t.side, newSl, t.sl) {
        return None;
      }
      err := WriteTrailedStop(store, t, newSl, now);
    }

    /** The store writes of `_apply_trailing`: the new stop, then TRAIL_SL_UPDATED. */
    method WriteTrailedStop(store: Store, t: Trade, newSl: real, now: Instant) returns (err: Option<string>)
      modifies store
      ensures var u := UpdateTradeIn(old(store.State()), RowId(t), [SetSl(newSl)]);
              && (u.Err? ==> err == Some(u.msg) && store.State() == old(store.State()))
              && (u.Ok? ==> err.None? && store.State() == AddEventIn(u.value.0, Info, TrailSlUpdated, now))
    {
      var r := store.UpdateTrade(RowId(t), [SetSl(newSl)]);
      if r.Err? {
        return Some(r.msg);
      }
      var _ := store.AddEvent(Info, TrailSlUpdated, now);
      return None;
    }

    /** `_manage_open_trade`: the exit reason when the trade was closed, or the exception. */
    method ManageOpenTrade(store: Store, t: Trade, st: Settings, inp: TickInput) returns (r: Fallible<Option<ExitReason>>)
      modifies this, store
      ensures var s := ManageSpec(old(State()), old(store.State()), st, t, inp);
              if r.Err? then s == Fail(State(), store.State(), inp.now, r.msg)
              else s == Step(State(), store.State(), Monitored(r.value))
    {
      if inp.ticker.Err? {
        return Err(inp.ticker.msg);
      }
      var price := Ticker(t.symbol, inp.ticker.value).last;
      if st.trailingEnabled {
        var err := ApplyTrailing(store, t, st, price, inp.now);
        if err.Some? {
          return Err(err.value);
        }
      }
      ghost var e1 := State();
      ghost var db1 := store.State();
      r := CloseIfHit(store, t, price, inp);
      assert ExitSpec(e1, db1, t, price, inp) ==
             (if r.Err? then Fail(State(), store.State(), inp.now, r.msg)
              else Step(State(), store.State(), Monitored(r.value)));
    }

    /** The exit half of `_manage_open_trade`: close the trade at the price when TP or SL is hit. */
    method CloseIfHit(store: Store, t: Trade, price: real, inp: TickInput) returns (r: Fallible<Option<ExitReason>>)
      modifies this, store
      ensures var s := ExitSpec(old(State()), old(store.State()), t, price, inp);
              if r.Err? then s == Fail(State(), store.State(), inp.now, r.msg)
              else s == Step(State(), store.State(), Monitored(r.value))
    {
      var hitTp := if t.side == Buy then price >= t.tp else price <= t.tp;
      var hitSl := if t.side == Buy then price <= t.sl else price >= t.sl;
      assert hitTp == HitTp(t.side, price, t.tp) && hitSl == HitSl(t.side, price, t.sl);
      if !(hitTp || hitSl) {
        return Ok(None);
      }
      var exitPrice := price;
      var pnl := (exitPrice - t.entry) * t.qty;
      PnlIs(t.side, price, t.entry, t.qty, pnl);
      if t.side == Sell {
        pnl := -pnl;
      }
      if inp.closeOrder.Raised? {
        return Err(inp.closeOrder.msg);
      }
      var u := store.UpdateTrade(RowId(t), [SetExitPrice(Some(exitPrice)), SetPnlUsdt(Some(pnl)), SetStatus(Closed)]);
      if u.Err? {
        return Err(u.msg);
      }
      var reason := if hitTp then TP else SL;
      assert ExitReasonFor(t.side, price, t.tp, t.sl) == Some(reason);
      var _ := store.AddEvent(Info, TradeClosed(reason), inp.now);
      dailyPnl := dailyPnl + pnl;
      return Ok(Some(reason));
    }

    /** The signal-to-entry part of the loop body; an exception is returned as its message. */
    method TryEntry(store: Store, st: Settings, inp: TickInput) returns (r: Fallible<Outcome>)
      modifies this, store
      ensures var s := EntrySpec(old(State()), old(store.State()), st, inp);
              if r.Err? then s == Fail(State(), store.State(), inp.now, r.msg)
              else s == Step(State(), store.State(), r.value)
    {
      if inp.candles.Err? {
        return Err(inp.candles.msg);
      }
      var signal := Strategy.DecideSignal(inp.candles.value);
      if signal == Strategy.Hold {
        return Ok(NoSignal);
      }
      if inp.ticker.Err? {
        return Err(inp.ticker.msg);
      }
      var tick := Ticker(st.symbol, inp.ticker.value);
      var sp := SpreadPct(tick.bid, tick.ask);
      if st.entry.None? {
        return Err("'Settings' object has no attribute 'max_spread_pct'");
      }
      var cfg := st.entry.value;
      if sp > cfg.maxSpreadPct {
        var _ := store.AddEvent(Info, SpreadSkip, inp.now);
        return Ok(SpreadTooWide);
      }
      var lev := SetLeverage(inp.leverage);
      if lev.Err? {
        return Err(lev.msg);
      }
      if inp.sizingBalance.Err? {
        return Err(inp.sizingBalance.msg);
      }
      var balance := BalanceUsdt(inp.sizingBalance.value);
      var qty := CalcQty(tick.last, balance, st.riskPct, st.slPct, st.leverage, st.maxMarginPct);
      if qty <= 0.0 {
        var _ := store.AddEvent(Warn, QtyZeroSkip, inp.now);
        return Ok(QtyZero);
      }
      var side := SideOf(signal);
      var reference := if side == Buy then tick.ask else tick.bid;
      r := PlaceEntry(store, st, cfg, side, reference, qty, inp);
    }

    /** The ENTRY EXECUTION block up to the fill: market order, or limit order, polling and fallback. */
    method ExecuteEntryOrder(cfg: EntryConfig, inp: TickInput) returns (r: Fallible<EntryResult>)
      ensures r == EntryFill(cfg, inp)
    {
      if inp.entryOrder.Err? {
        return Err(inp.entryOrder.msg);
      }
      var entryOrder := inp.entryOrder.value;
      if cfg.entryOrderType == "market" {
        return Ok(Filled(entryOrder, ParseFill(entryOrder)));
      }
      var waited := WaitFill(inp.polls, entryOrder.id);
      var parsed := ParseFill(if waited.Some? then waited.value else EmptyOrder);
      if IsFilledStatus(parsed.status) {
        return Ok(Filled(entryOrder, parsed));
      }
      if !cfg.allowMarketFallback {
        return Ok(TimedOut);
      }
      if inp.fallbackOrder.Err? {
        return Err(inp.fallbackOrder.msg);
      }
      return Ok(Filled(inp.fallbackOrder.value, ParseFill(inp.fallbackOrder.value)));
    }

    /** The entry from the order on: fill fallback, slippage warning, the trade, exchange SL/TP, counters. */
    method PlaceEntry(store: Store, st: Settings, cfg: EntryConfig, side: Side, reference: real,
                      qty: real, inp: TickInput) returns (r: Fallible<Outcome>)
      modifies this, store
      ensures var s := PlaceEntrySpec(old(State()), old(store.State()), st, cfg, side, reference, qty, inp);
              if r.Err? then s == Fail(State(), store.State(), inp.now, r.msg)
              else s == Step(State(), store.State(), r.value)
    {
      var e := ExecuteEntryOrder(cfg, inp);
      if e.Err? {
        return Err(e.msg);
      }
      if e.value.TimedOut? {
        var _ := store.AddEvent(Info, EntryTimeout, inp.now);
        return Ok(EntryTimedOut);
      }
      var fillAvg := e.value.fill.average;
      var fill := if fillAvg.None? || fillAvg.value == 0.0 then reference else fillAvg.value;
      assert fill == FillPrice(fillAvg, reference);
      ghost var e0 := State();
      ghost var db0 := store.State();
      var saved := RecordEntry(store, st, cfg, side, reference, qty, fill, e.value.order, e.value.fill.feeCost, inp);
      assert EntryFill(cfg, inp) == Ok(Filled(e.value.order, e.value.fill));
      return Ok(Opened(saved));
    }

    /** The writes after a fill: slippage warning, the trade, TRADE_OPENED, exchange SL/TP, counters. */
    method RecordEntry(store: Store, st: Settings, cfg: EntryConfig, side: Side, reference: real, qty: real,
                       fill: real, order: RawOrder, feeCost: Option<real>, inp: TickInput) returns (saved: Trade)
      modifies this, store
      ensures Step(State(), store.State(), Opened(saved))
              == RecordEntrySpec(old(State()), old(store.State()), st, cfg, side, reference, qty, fill, order, feeCost, inp)
    {
      LogSlippage(store, cfg, fill, reference, inp.now);
      saved := store.AddTrade(EntryTrade(st, side, qty, fill, order, feeCost, inp.now));
      var _ := store.AddEvent(Info, TradeOpened, inp.now);
      LogTradingStop(store, cfg, inp.tradingStop, inp.now);
      lastTradeTime := Some(inp.now);
      tradesToday := tradesToday + 1;
      bestPrice := None;
    }

    /** The slippage check after the fill. */
    method LogSlippage(store: Store, cfg: EntryConfig, fill: real, reference: real, now: Instant)
      modifies store
      ensures store.State() == SlippageLog(old(store.State()), cfg, fill, reference, now)
    {
      if SlippagePct(fill, reference) > cfg.maxSlippagePct {
        var _ := store.AddEvent(Warn, SlippageHigh, now);
      }
    }

    /** Placing SL/TP on the exchange, when enabled, and logging how it went. */
    method LogTradingStop(store: Store, cfg: EntryConfig, tradingStop: CallResult, now: Instant)
      modifies store
      ensures store.State() == TradingStopLog(old(store.State()), cfg, tradingStop, now)
    {
      if cfg.useExchangeSlTp {
        if tradingStop.Returned? {
          var _ := store.AddEvent(Info, ExchangeTpslSet, now);
        } else {
          var _ := store.AddEvent(Warn, ExchangeTpslFail, now);
        }
      }
    }

    /** One iteration of `_run_loop`, with the pause it ends with, in seconds. */
    method Tick(store: Store, inp: TickInput) returns (outcome: Outcome, pause: int)
      requires store.Valid()
      modifies this, store
      ensures Step(State(), store.State(), outcome) == TickSpec(old(State()), old(store.State()), inp)
      ensures pause == PauseSec(outcome, SettingsOrDefault(old(store.State()), inp.now).loopIntervalSec)
    {
      var st;
      outcome, st := IterationBody(store, inp);
      if !outcome.Opened? && !outcome.LoopError? && st.loopIntervalSec < 0 {
        var _ := store.AddEvent(Error, LoopErrorEvent, inp.now);
        outcome := LoopError(SleepErrorMsg);
      }
      pause := PauseSec(outcome, st.loopIntervalSec);
    }

    /** The body of one iteration, up to its closing sleep; also returns the settings it read. */
    method IterationBody(store: Store, inp: TickInput) returns (outcome: Outcome, st: Settings)
      requires store.Valid()
      modifies this, store
      ensures Step(State(), store.State(), outcome) == TickBody(old(State()), old(store.State()), inp)
      ensures st == SettingsOrDefault(old(store.State()), inp.now)
    {
      ResetDailyIfNeeded(inp.today);
      st := store.GetOrCreateSettings(inp.now);
      var r: Fallible<Outcome>;
      if inp.gateBalance.Err? {
        r := Err(inp.gateBalance.msg);
      } else if DailyLossHit(BalanceUsdt(inp.gateBalance.value), dailyPnl, st.maxDailyLossPct) {
        var _ := store.AddEvent(Warn, DailyLossLimitHit, inp.now);
        r := Ok(DailyLossLimit);
      } else if tradesToday >= st.maxTradesPerDay {
        r := Ok(TradeCapReached);
      } else if !CooldownOk(lastTradeTime, inp.now, st.cooldownMinutes) {
        r := Ok(CoolingDown);
      } else {
        var openTrade := store.GetOpenTrade(st.symbol);
        if openTrade.Some? {
          var m := ManageOpenTrade(store, openTrade.value, st, inp);
          r := if m.Ok? then Ok(Monitored(m.value)) else Err(m.msg);
        } else {
          r := TryEntry(store, st, inp);
        }
      }
      if r.Err? {
        var _ := store.AddEvent(Error, LoopErrorEvent, inp.now);
        outcome := LoopError(r.msg);
      } else {
        outcome := r.value;
      }
    }

    /** `_run_loop` over the iterations made while `running`; the store invariants hold throughout. */
    method Run(store: Store, inputs: seq<TickInput>)
      requires store.Valid() && OneOpenPerSymbol(store.trades)
      modifies this, store
      ensures (State(), store.State()) == RunSpec(old(State()), old(store.State()), inputs)
      ensures store.Valid() && OneOpenPerSymbol(store.trades) && Evolves(old(store.State()), store.State())
      ensures running == old(running)
    {
      var i := 0;
      EvolvesRefl(store.State());
      while running && i < |inputs|
        invariant 0 <= i <= |inputs|
        invariant running == old(running)
        invariant RunSpec(old(State()), old(store.State()), inputs) == RunSpec(State(), store.State(), inputs[i..])
        invariant store.Valid() && OneOpenPerSymbol(store.trades) && Evolves(old(store.State()), store.State())
      {
        ghost var before := store.State();
        TickInvariants(State(), before, inputs[i]);
        var _, _ := Tick(store, inputs[i]);
        EvolvesTrans(old(store.State()), before, store.State());
        assert inputs[i..][1..] == inputs[i + 1..];
        i := i + 1;
      }
    }
  }
}
