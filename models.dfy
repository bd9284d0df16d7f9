/** The persisted records: Settings, Trade and Event, with their defaults. */
module Models {
  import opened Base

  /** A trade's side; the engine writes only "buy" or "sell". */
  datatype Side = Buy | Sell

  /** A trade's status; "OPEN" until the monitor closes it. */
  datatype TradeStatus = Open | Closed

  /** Why a trade was closed (the first word of the TRADE_CLOSED message). */
  datatype ExitReason = TP | SL

  datatype Level = Info | Warn | Error

  /** The event types written anywhere in the repository. */
  datatype EventType =
    | BotStarted | BotStopped | SettingsUpdated
    | DailyLossLimitHit | SpreadSkip | QtyZeroSkip | EntryTimeout | SlippageHigh
    | TradeOpened | ExchangeTpslSet | ExchangeTpslFail
    | TradeClosed(reason: ExitReason) | TrailSlUpdated | LoopErrorEvent

  /**
   * The entry-execution settings the engine reads but the Settings table does not
   * declare (max_spread_pct, entry_order_type, entry_timeout_sec,
   * allow_market_fallback, max_slippage_pct, use_exchange_sl_tp).
   */
  datatype EntryConfig = EntryConfig(
    maxSpreadPct: real,
    entryOrderType: string,
    entryTimeoutSec: int,
    allowMarketFallback: bool,
    maxSlippagePct: real,
    useExchangeSlTp: bool)

  /**
   * The single settings row. `entry` is `None` on every row the table can hold,
   * since the six entry fields are not columns of it.
   */
  datatype Settings = Settings(
    id: int,
    loopIntervalSec: int,
    riskPct: real,
    slPct: real,
    tpPct: real,
    maxTradesPerDay: int,
    cooldownMinutes: int,
    newsBlackoutMinutes: int,
    leverage: int,
    symbol: string,
    timeframe: string,
    maxMarginPct: real,
    maxDailyLossPct: real,
    newsEnabled: bool,
    trailingEnabled: bool,
    trailingActivationPct: real,
    trailingPct: real,
    updatedAt: Instant,
    entry: Option<EntryConfig>)

  /** A settings row built with every default, stamped `now`. */
  function DefaultSettings(now: Instant): (s: Settings)
    ensures s.id == 1 && s.loopIntervalSec == 30
    ensures s.riskPct == 1.0 && s.slPct == 1.5 && s.tpPct == 2.5
    ensures s.maxTradesPerDay == 10 && s.cooldownMinutes == 10 && s.newsBlackoutMinutes == 15
    ensures s.leverage == 2 && s.symbol == "BTC/USDT:USDT" && s.timeframe == "5m"
    ensures s.maxMarginPct == 10.0 && s.maxDailyLossPct == 2.5 && !s.newsEnabled
    ensures s.trailingEnabled && s.trailingActivationPct == 0.8 && s.trailingPct == 0.6
    ensures s.updatedAt == now && s.entry.None?
  {
    Settings(1, 30, 1.0, 1.5, 2.5, 10, 10, 15, 2, "BTC/USDT:USDT", "5m",
             10.0, 2.5, false, true, 0.8, 0.6, now, None)
  }

  /** A trade row; `id` is `None` until the store assigns one. */
  datatype Trade = Trade(
    id: Option<int>,
    ts: Instant,
    symbol: string,
    side: Side,
    qty: real,
    entry: real,
    sl: real,
    tp: real,
    exitPrice: Option<real>,
    pnlUsdt: Option<real>,
    status: TradeStatus,
    note: string,
    entryOrderId: Option<string>,
    entryAvgFill: Option<real>,
    entryFeeUsdt: Option<real>)

  /** `Trade(...)` with the given fields and the declared defaults for the rest. */
  function NewTrade(ts: Instant, symbol: string, side: Side, qty: real,
                    entry: real, sl: real, tp: real, entryOrderId: Option<string>,
                    entryAvgFill: Option<real>, entryFeeUsdt: Option<real>): (t: Trade)
    ensures t.id.None? && t.status == Open && t.exitPrice.None? && t.pnlUsdt.None? && t.note == ""
    ensures t.ts == ts && t.symbol == symbol && t.side == side && t.qty == qty
    ensures t.entry == entry && t.sl == sl && t.tp == tp
    ensures t.entryOrderId == entryOrderId && t.entryAvgFill == entryAvgFill && t.entryFeeUsdt == entryFeeUsdt
  {
    Trade(None, ts, symbol, side, qty, entry, sl, tp, None, None, Open, "",
          entryOrderId, entryAvgFill, entryFeeUsdt)
  }

  /** An event row: append-only audit record (the message text is not modelled). */
  datatype Event = Event(id: int, ts: Instant, level: Level, kind: EventType)
}
