/**
 * What one iteration of the loop guarantees: the gate order, monitoring only
 * when a trade is open, the facts of an entry, the exit and trailing effects,
 * the quirks of the iteration order, and the store invariants every iteration
 * keeps (ids in insertion order, at most one open trade per symbol, an
 * append-only event log, stops that never loosen, closed trades that never change).
 */
module TickProperties {
  import opened Base
  import opened Models
  import opened Exchange
  import opened Store
  import opened Risk
  import opened Tick

  /** The three throttles that end an iteration before the open-trade lookup. */
  predicate IsGated(o: Outcome)
  {
    o == DailyLossLimit || o == TradeCapReached || o == CoolingDown
  }

  /** No two OPEN trades share a symbol. */
  ghost predicate OneOpenPerSymbol(trades: seq<Trade>)
  {
    forall i, j :: 0 <= i < j < |trades| && trades[i].status == Open && trades[j].status == Open
      ==> trades[i].symbol != trades[j].symbol
  }

  /** How a stored trade may change: identity kept, a closed trade frozen, the stop only tightened. */
  predicate TradeEvolves(x: Trade, y: Trade)
  {
    && SameIdentity(x, y)
    && (x.status == Closed ==> y == x)
    && (x.side == Buy ==> y.sl >= x.sl)
    && (x.side == Sell ==> y.sl <= x.sl)
  }

  /** The store only grows: events appended, trades appended, existing trades evolving. */
  ghost predicate Evolves(a: Db, b: Db)
  {
    && |a.events| <= |b.events| && b.events[..|a.events|] == a.events
    && |a.trades| <= |b.trades|
    && (forall j :: 0 <= j < |a.trades| ==> TradeEvolves(a.trades[j], b.trades[j]))
  }

  lemma EvolvesRefl(a: Db)
    ensures Evolves(a, a)
  {
    assert a.events[..|a.events|] == a.events;
  }

  lemma EvolvesTrans(a: Db, b: Db, c: Db)
    requires Evolves(a, b) && Evolves(b, c)
    ensures Evolves(a, c)
  {
    assert c.events[..|a.events|] == c.events[..|b.events|][..|a.events|];
  }

  lemma AddEventEvolves(db: Db, level: Level, kind: EventType, now: Instant)
    ensures Evolves(db, AddEventIn(db, level, kind, now))
  {
  }

  lemma AddTradeEvolves(db: Db, t: Trade)
    ensures Evolves(db, AddTradeIn(db, t).0)
  {
    var db1 := AddTradeIn(db, t).0;
    forall j | 0 <= j < |db.trades|
      ensures TradeEvolves(db.trades[j], db1.trades[j])
    {
      assert db1.trades[j] == db1.trades[..|db.trades|][j];
    }
    assert db1.events[..|db.events|] == db.events;
  }

  /** Evolving without new rows never makes a closed trade open again, so one open trade per symbol is kept. */
  lemma EvolvesKeepsOneOpen(a: Db, b: Db)
    requires Evolves(a, b) && |b.trades| == |a.trades| && OneOpenPerSymbol(a.trades)
    ensures OneOpenPerSymbol(b.trades)
  {
    forall i, j | 0 <= i < j < |b.trades| && b.trades[i].status == Open && b.trades[j].status == Open
      ensures b.trades[i].symbol != b.trades[j].symbol
    {
      assert TradeEvolves(a.trades[i], b.trades[i]) && TradeEvolves(a.trades[j], b.trades[j]);
    }
  }

  /** Appending an open trade on a symbol with no open trade keeps one open trade per symbol. */
  lemma AppendOpenKeepsOne(trades: seq<Trade>, t: Trade)
    requires OneOpenPerSymbol(trades)
    requires forall j :: 0 <= j < |trades| ==> !IsOpenOn(trades[j], t.symbol)
    ensures OneOpenPerSymbol(trades + [t])
  {
    var ts := trades + [t];
    forall i, j | 0 <= i < j < |ts| && ts[i].status == Open && ts[j].status == Open
      ensures ts[i].symbol != ts[j].symbol
    {
      if j == |trades| {
        assert !IsOpenOn(trades[i], t.symbol);
      } else {
        assert ts[i] == trades[i] && ts[j] == trades[j];
      }
    }
  }

  lemma FailEvolves(eng: EngineState, db: Db, now: Instant, msg: string)
    ensures var s := Fail(eng, db, now, msg);
            Evolves(db, s.db) && s.db.trades == db.trades && s.db.settings == db.settings
            && (WellFormed(db) ==> WellFormed(s.db))
  {
    AddEventEvolves(db, Error, LoopErrorEvent, now);
  }

  /** The closing sleep only ever adds the LOOP_ERROR event, and never to an iteration that opened a trade. */
  lemma SleepEvolves(s: Step, loopIntervalSec: int, now: Instant)
    ensures var r := SleepSpec(s, loopIntervalSec, now);
            && Evolves(s.db, r.db) && r.db.trades == s.db.trades && r.db.settings == s.db.settings
            && r.eng == s.eng && (WellFormed(s.db) ==> WellFormed(r.db))
            && (r.outcome.Opened? <==> s.outcome.Opened?) && (r.outcome.Opened? ==> r == s)
  {
    EvolvesRefl(s.db);
    FailEvolves(s.eng, s.db, now, SleepErrorMsg);
  }

  /** In a well-formed store the OPEN row `get_open_trade` returns is updated under its own position. */
  lemma OpenTradeRow(db: Db, symbol: string) returns (k: nat)
    requires WellFormed(db) && GetOpenTradeIn(db, symbol).Some?
    ensures k < |db.trades| && db.trades[k] == GetOpenTradeIn(db, symbol).value
    ensures IsOpenOn(db.trades[k], symbol) && RowId(db.trades[k]) == k + 1
    ensures IndexOfTrade(db.trades, k + 1) == Some(k)
  {
    k := LatestOpenIndex(db.trades, symbol).value;
    IndexOfWellFormed(db, k + 1);
  }

  /** The trailing step changes at most the stop of the trade's own row, and only tightens it. */
  lemma TrailSpecEvolves(eng: EngineState, db: Db, t: Trade, st: Settings, price: real, now: Instant, k: nat)
    requires WellFormed(db) && k < |db.trades| && db.trades[k] == t && t.status == Open
    requires RowId(t) == k + 1
    ensures var s := TrailSpec(eng, db, t, st, price, now);
            && WellFormed(s.db) && Evolves(db, s.db) && |s.db.trades| == |db.trades|
            && s.db.settings == db.settings && s.db.trades[k].status == Open
            && (s.outcome.LoopError? || s.outcome == Monitored(None))
            && s.eng == eng.(bestPrice := s.eng.bestPrice)
  {
    var s := TrailSpec(eng, db, t, st, price, now);
    var r := TrailStep(t.side, t.entry, t.sl, eng.bestPrice, price, st.trailingActivationPct, st.trailingPct);
    if r.Err? {
      FailEvolves(eng, db, now, r.msg);
    } else if r.value.newSl.None? {
      EvolvesRefl(db);
    } else {
      var x := r.value.newSl.value;
      var e := eng.(bestPrice := r.value.best);
      IndexOfWellFormed(db, k + 1);
      var u := UpdateTradeIn(db, RowId(t), [SetSl(x)]);
      assert u.Ok?;
      UpdateTradeFrame(db, RowId(t), [SetSl(x)]);
      TrailNeverLoosens(t.side, t.entry, t.sl, eng.bestPrice, price, st.trailingActivationPct, st.trailingPct);
      var db1 := u.value.0;
      SetSlUpdate(t, x);
      assert db1.trades[k] == t.(sl := x);
      forall j | 0 <= j < |db.trades|
        ensures TradeEvolves(db.trades[j], db1.trades[j])
      {
        if j != k {
          assert db.trades[j].id == Some(j + 1);
        }
      }
      EvolvesRefl(db);
      assert Evolves(db, db1);
      AddEventEvolves(db1, Info, TrailSlUpdated, now);
      EvolvesTrans(db, db1, s.db);
    }
  }

  /** The exit effects: nothing without a hit; on a hit with a close order, the row closes and the PnL is booked. */
  lemma ExitEffects(eng: EngineState, db: Db, t: Trade, price: real, inp: TickInput, k: nat)
    requires WellFormed(db) && k < |db.trades| && RowId(t) == k + 1
    ensures var s := ExitSpec(eng, db, t, price, inp);
            var reason := ExitReasonFor(t.side, price, t.tp, t.sl);
            var pnl := Pnl(t.side, price, t.entry, t.qty);
            && (reason.None? ==> s == Step(eng, db, Monitored(None)))
            && (reason.Some? && inp.closeOrder.Returned? ==>
                  && s.outcome == Monitored(reason)
                  && s.eng == eng.(dailyPnl := eng.dailyPnl + pnl)
                  && s.db.trades == db.trades[k := db.trades[k].(exitPrice := Some(price), pnlUsdt := Some(pnl), status := Closed)]
                  && s.db.events == db.events + [Event(|db.events| + 1, inp.now, Info, TradeClosed(reason.value))])
            && (reason.Some? && inp.closeOrder.Raised? ==> s == Fail(eng, db, inp.now, inp.closeOrder.msg))
  {
    IndexOfWellFormed(db, k + 1);
    CloseUpdate(db.trades[k], price, Pnl(t.side, price, t.entry, t.qty));
  }

  /** The exit step keeps the store invariants when the row it updates is OPEN. */
  lemma ExitSpecEvolves(eng: EngineState, db: Db, t: Trade, price: real, inp: TickInput, k: nat)
    requires WellFormed(db) && k < |db.trades| && RowId(t) == k + 1 && db.trades[k].status == Open
    ensures var s := ExitSpec(eng, db, t, price, inp);
            && WellFormed(s.db) && Evolves(db, s.db) && |s.db.trades| == |db.trades|
            && s.db.settings == db.settings
            && s.eng == eng.(dailyPnl := s.eng.dailyPnl)
  {
    var s := ExitSpec(eng, db, t, price, inp);
    var reason := ExitReasonFor(t.side, price, t.tp, t.sl);
    ExitEffects(eng, db, t, price, inp, k);
    if reason.None? {
      EvolvesRefl(db);
    } else if inp.closeOrder.Raised? {
      FailEvolves(eng, db, inp.now, inp.closeOrder.msg);
    } else {
      var pnl := Pnl(t.side, price, t.entry, t.qty);
      var us := [SetExitPrice(Some(price)), SetPnlUsdt(Some(pnl)), SetStatus(Closed)];
      UpdateTradeFrame(db, RowId(t), us);
      var db1 := UpdateTradeIn(db, RowId(t), us).value.0;
      assert db1.trades == s.db.trades;
      forall j | 0 <= j < |db.trades|
        ensures TradeEvolves(db.trades[j], db1.trades[j])
      {
        if j != k {
          assert db.trades[j].id == Some(j + 1);
        }
      }
      EvolvesRefl(db);
      assert Evolves(db, db1);
      AddEventEvolves(db1, Info, TradeClosed(reason.value), inp.now);
    }
  }

  /** Managing the open trade keeps the invariants, adds no trade and leaves the trade counters alone. */
  lemma ManageSpecEvolves(eng: EngineState, db: Db, st: Settings, inp: TickInput)
    requires WellFormed(db) && OneOpenPerSymbol(db.trades) && GetOpenTradeIn(db, st.symbol).Some?
    ensures var s := ManageSpec(eng, db, st, GetOpenTradeIn(db, st.symbol).value, inp);
            && WellFormed(s.db) && Evolves(db, s.db) && |s.db.trades| == |db.trades|
            && OneOpenPerSymbol(s.db.trades) && s.db.settings == db.settings
            && (s.outcome.Monitored? || s.outcome.LoopError?)
            && s.eng.tradesToday == eng.tradesToday && s.eng.lastTradeTime == eng.lastTradeTime
            && s.eng.dayStart == eng.dayStart && s.eng.running == eng.running
  {
    var t := GetOpenTradeIn(db, st.symbol).value;
    var k := OpenTradeRow(db, st.symbol);
    var s := ManageSpec(eng, db, st, t, inp);
    if inp.ticker.Err? {
      FailEvolves(eng, db, inp.now, inp.ticker.msg);
    } else {
      var price := Ticker(t.symbol, inp.ticker.value).last;
      var s1 := if st.trailingEnabled then TrailSpec(eng, db, t, st, price, inp.now) else Step(eng, db, Monitored(None));
      if st.trailingEnabled {
        TrailSpecEvolves(eng, db, t, st, price, inp.now, k);
      } else {
        EvolvesRefl(db);
      }
      if !s1.outcome.LoopError? {
        ExitSpecEvolves(s1.eng, s1.db, t, price, inp, k);
        EvolvesTrans(db, s1.db, s.db);
        ExitEffects(s1.eng, s1.db, t, price, inp, k);
      }
    }
    EvolvesKeepsOneOpen(db, s.db);
  }

  /** The trade an entry stores: open, on the configured symbol, bracketed around the fill. */
  lemma EntryTradeFacts(st: Settings, side: Side, qty: real, fill: real, order: RawOrder, feeCost: Option<real>, now: Instant)
    ensures var t := EntryTrade(st, side, qty, fill, order, feeCost, now);
            && t.id.None? && t.status == Open && t.symbol == st.symbol && t.side == side && t.ts == now
            && t.qty == qty && t.entry == fill && (t.sl, t.tp) == Bracket(side, fill, st.slPct, st.tpPct)
            && t.exitPrice.None? && t.pnlUsdt.None?
            && t.entryOrderId == order.id && t.entryFeeUsdt == feeCost
            && (t.entryAvgFill.Some? <==> fill != 0.0)
  {
  }

  /**
   * Once the entry order has filled the trade is always recorded, whatever the
   * slippage: a high slippage only adds a SLIPPAGE_HIGH warning before it.
   */
  lemma FilledEntryOpens(eng: EngineState, db: Db, st: Settings, cfg: EntryConfig, side: Side,
                         reference: real, qty: real, inp: TickInput)
    requires EntryFill(cfg, inp).Ok? && EntryFill(cfg, inp).value.Filled?
    ensures var s := PlaceEntrySpec(eng, db, st, cfg, side, reference, qty, inp);
            var r := EntryFill(cfg, inp).value;
            var fill := FillPrice(r.fill.average, reference);
            && s.outcome == Opened(EntryTrade(st, side, qty, fill, r.order, r.fill.feeCost, inp.now).(id := Some(|db.trades| + 1)))
            && |s.db.trades| == |db.trades| + 1 && s.db.trades[|db.trades|] == s.outcome.trade
            && |s.db.events| > |db.events|
            && (s.db.events[|db.events|].kind == SlippageHigh <==> SlippagePct(fill, reference) > cfg.maxSlippagePct)
            && s.eng == eng.(lastTradeTime := Some(inp.now), tradesToday := eng.tradesToday + 1, bestPrice := None)
  {
  }

  /** A limit order that no lookup shows filled is abandoned: ENTRY_TIMEOUT, or the market fallback's fill. */
  lemma LimitEntryTimeout(eng: EngineState, db: Db, st: Settings, cfg: EntryConfig, side: Side,
                          reference: real, qty: real, inp: TickInput)
    requires cfg.entryOrderType != "market" && inp.entryOrder.Ok?
    requires forall i :: 0 <= i < |inp.polls| ==> !FilledAt(inp.polls, inp.entryOrder.value.id, i)
    ensures var s := PlaceEntrySpec(eng, db, st, cfg, side, reference, qty, inp);
            && (!cfg.allowMarketFallback ==> s == Step(eng, AddEventIn(db, Info, EntryTimeout, inp.now), EntryTimedOut))
            && (cfg.allowMarketFallback && inp.fallbackOrder.Ok? ==>
                  s.outcome.Opened? && s.outcome.trade.entryOrderId == inp.fallbackOrder.value.id
                  && s.outcome.trade.entry == FillPrice(inp.fallbackOrder.value.average, reference))
            && (cfg.allowMarketFallback && inp.fallbackOrder.Err? ==> s == Fail(eng, db, inp.now, inp.fallbackOrder.msg))
  {
    var id := inp.entryOrder.value.id;
    WaitFillTimeout(inp.polls, id, None);
    var waited := WaitFillResult(inp.polls, id);
    if waited.Some? {
      var i :| 0 <= i < |inp.polls| && waited == StatusSafe(inp.polls[i], id) && StatusSafe(inp.polls[i], id).Some?
               && forall j :: i < j < |inp.polls| ==> StatusSafe(inp.polls[j], id).None?;
      assert !FilledAt(inp.polls, id, i);
    }
    assert !IsFilledStatus(ParseFill(if waited.Some? then waited.value else EmptyOrder).status);
    if cfg.allowMarketFallback && inp.fallbackOrder.Ok? {
      FilledEntryOpens(eng, db, st, cfg, side, reference, qty, inp);
    }
  }

  /** A limit order that the `k`-th lookup first shows filled is recorded at that order's average. */
  lemma LimitEntryFilled(eng: EngineState, db: Db, st: Settings, cfg: EntryConfig, side: Side,
                         reference: real, qty: real, inp: TickInput, k: nat)
    requires cfg.entryOrderType != "market" && inp.entryOrder.Ok?
    requires k < |inp.polls| && FilledAt(inp.polls, inp.entryOrder.value.id, k)
    requires forall i :: 0 <= i < k ==> !FilledAt(inp.polls, inp.entryOrder.value.id, i)
    ensures var s := PlaceEntrySpec(eng, db, st, cfg, side, reference, qty, inp);
            var o := StatusSafe(inp.polls[k], inp.entryOrder.value.id).value;
            && s.outcome.Opened?
            && s.outcome.trade.entryOrderId == inp.entryOrder.value.id
            && s.outcome.trade.entry == FillPrice(o.average, reference)
  {
    WaitFillFirstFilled(inp.polls, inp.entryOrder.value.id, None, k);
    FilledEntryOpens(eng, db, st, cfg, side, reference, qty, inp);
  }

  /** From the entry order on: the invariants are kept, and only a recorded entry adds a trade (exactly one). */
  lemma PlaceEntryEvolves(eng: EngineState, db: Db, st: Settings, cfg: EntryConfig, side: Side,
                          reference: real, qty: real, inp: TickInput)
    requires WellFormed(db) && OneOpenPerSymbol(db.trades)
    requires forall j :: 0 <= j < |db.trades| ==> !IsOpenOn(db.trades[j], st.symbol)
    ensures var s := PlaceEntrySpec(eng, db, st, cfg, side, reference, qty, inp);
            && WellFormed(s.db) && Evolves(db, s.db) && OneOpenPerSymbol(s.db.trades)
            && s.db.settings == db.settings
            && (s.outcome.Opened? ==> |s.db.trades| == |db.trades| + 1)
            && (!s.outcome.Opened? ==> s.db.trades == db.trades && s.eng == eng)
            && (s.outcome.Opened? || s.outcome.LoopError? || s.outcome == EntryTimedOut)
            && s.eng.dayStart == eng.dayStart && s.eng.running == eng.running
  {
    var s := PlaceEntrySpec(eng, db, st, cfg, side, reference, qty, inp);
    var r := EntryFill(cfg, inp);
    if r.Err? {
      FailEvolves(eng, db, inp.now, r.msg);
    } else if r.value.TimedOut? {
      AddEventEvolves(db, Info, EntryTimeout, inp.now);
    } else {
      RecordEntryEvolves(eng, db, st, cfg, side, reference, qty, FillPrice(r.value.fill.average, reference),
                         r.value.order, r.value.fill.feeCost, inp);
    }
  }

  /** Recording a filled entry keeps the invariants and appends exactly the new open trade. */
  lemma RecordEntryEvolves(eng: EngineState, db: Db, st: Settings, cfg: EntryConfig, side: Side, reference: real,
                           qty: real, fill: real, order: RawOrder, feeCost: Option<real>, inp: TickInput)
    requires WellFormed(db) && OneOpenPerSymbol(db.trades)
    requires forall j :: 0 <= j < |db.trades| ==> !IsOpenOn(db.trades[j], st.symbol)
    ensures var s := RecordEntrySpec(eng, db, st, cfg, side, reference, qty, fill, order, feeCost, inp);
            var t := EntryTrade(st, side, qty, fill, order, feeCost, inp.now);
            && WellFormed(s.db) && Evolves(db, s.db) && OneOpenPerSymbol(s.db.trades)
            && s.db.settings == db.settings
            && s.db.trades == db.trades + [t.(id := Some(|db.trades| + 1))]
            && s.outcome == Opened(t.(id := Some(|db.trades| + 1)))
  {
    var s := RecordEntrySpec(eng, db, st, cfg, side, reference, qty, fill, order, feeCost, inp);
    var db1 := if SlippagePct(fill, reference) > cfg.maxSlippagePct then AddEventIn(db, Warn, SlippageHigh, inp.now) else db;
    if db1 == db { EvolvesRefl(db); } else { AddEventEvolves(db, Warn, SlippageHigh, inp.now); }
    var t := EntryTrade(st, side, qty, fill, order, feeCost, inp.now);
    var db2 := AddTradeIn(db1, t).0;
    AddTradeEvolves(db1, t);
    EvolvesTrans(db, db1, db2);
    var db3 := AddEventIn(db2, Info, TradeOpened, inp.now);
    AddEventEvolves(db2, Info, TradeOpened, inp.now);
    EvolvesTrans(db, db2, db3);
    if s.db != db3 {
      AddEventEvolves(db3, if inp.tradingStop.Returned? then Info else Warn,
                      if inp.tradingStop.Returned? then ExchangeTpslSet else ExchangeTpslFail, inp.now);
      EvolvesTrans(db, db3, s.db);
    }
    AppendOpenKeepsOne(db.trades, t.(id := Some(|db.trades| + 1)));
  }

  /** What every entry attempt leaves behind: a well-formed store that only grew, at most one new trade, and no gate outcome. */
  ghost predicate EntryStepSound(eng: EngineState, db: Db, s: Step)
  {
    && WellFormed(s.db) && Evolves(db, s.db) && OneOpenPerSymbol(s.db.trades)
    && s.db.settings == db.settings
    && (s.outcome.Opened? ==> |s.db.trades| == |db.trades| + 1)
    && (!s.outcome.Opened? ==> s.db.trades == db.trades && s.eng == eng)
    && !IsGated(s.outcome) && !s.outcome.Monitored?
    && s.eng.dayStart == eng.dayStart && s.eng.running == eng.running
  }

  /** An entry attempt that fails satisfies EntryStepSound. */
  lemma FailSound(eng: EngineState, db: Db, now: Instant, msg: string)
    requires WellFormed(db) && OneOpenPerSymbol(db.trades)
    ensures EntryStepSound(eng, db, Fail(eng, db, now, msg))
  {
    FailEvolves(eng, db, now, msg);
  }

  /** An entry attempt that only logs an event satisfies EntryStepSound. */
  lemma SkipSound(eng: EngineState, db: Db, level: Level, ev: EventType, now: Instant, o: Outcome)
    requires WellFormed(db) && OneOpenPerSymbol(db.trades)
    requires o == SpreadTooWide || o == QtyZero
    ensures EntryStepSound(eng, db, Step(eng, AddEventIn(db, level, ev, now), o))
  {
    AddEventEvolves(db, level, ev, now);
  }

  lemma EntrySpecEvolves(eng: EngineState, db: Db, st: Settings, inp: TickInput)
    requires WellFormed(db) && OneOpenPerSymbol(db.trades) && GetOpenTradeIn(db, st.symbol).None?
    ensures EntryStepSound(eng, db, EntrySpec(eng, db, st, inp))
  {
    var s := EntrySpec(eng, db, st, inp);
    match inp.candles
    case Err(m) =>
      assert s == Fail(eng, db, inp.now, m);
      FailSound(eng, db, inp.now, m);
    case Ok(closes) =>
      var sig := Strategy.DecideSignal(closes);
      if sig == Strategy.Hold {
        assert s == Step(eng, db, NoSignal);
        EvolvesRefl(db);
      } else {
        match inp.ticker
        case Err(m) =>
          assert s == Fail(eng, db, inp.now, m);
          FailSound(eng, db, inp.now, m);
        case Ok(raw) =>
          var tv := Ticker(st.symbol, raw);
          match st.entry
          case None =>
            var m := "'Settings' object has no attribute 'max_spread_pct'";
            assert s == Fail(eng, db, inp.now, m);
            FailSound(eng, db, inp.now, m);
          case Some(cfg) =>
            if SpreadPct(tv.bid, tv.ask) > cfg.maxSpreadPct {
              assert s == Step(eng, AddEventIn(db, Info, SpreadSkip, inp.now), SpreadTooWide);
              SkipSound(eng, db, Info, SpreadSkip, inp.now, SpreadTooWide);
            } else {
              SizedEntryEvolves(eng, db, st, inp);
            }
      }
  }

  /** The part of an entry attempt after the spread filter passed: leverage, sizing and the order. */
  lemma SizedEntryEvolves(eng: EngineState, db: Db, st: Settings, inp: TickInput)
    requires WellFormed(db) && OneOpenPerSymbol(db.trades) && GetOpenTradeIn(db, st.symbol).None?
    requires inp.candles.Ok? && Strategy.DecideSignal(inp.candles.value) != Strategy.Hold
    requires inp.ticker.Ok? && st.entry.Some?
    requires var tv := Ticker(st.symbol, inp.ticker.value); SpreadPct(tv.bid, tv.ask) <= st.entry.value.maxSpreadPct
    ensures EntryStepSound(eng, db, EntrySpec(eng, db, st, inp))
  {
    var tv := Ticker(st.symbol, inp.ticker.value);
    var cfg := st.entry.value;
    var s := EntrySpec(eng, db, st, inp);
    if SetLeverage(inp.leverage).Err? {
      assert s == Fail(eng, db, inp.now, SetLeverage(inp.leverage).msg);
      FailSound(eng, db, inp.now, SetLeverage(inp.leverage).msg);
    } else if inp.sizingBalance.Err? {
      assert s == Fail(eng, db, inp.now, inp.sizingBalance.msg);
      FailSound(eng, db, inp.now, inp.sizingBalance.msg);
    } else {
      var qty := CalcQty(tv.last, BalanceUsdt(inp.sizingBalance.value), st.riskPct, st.slPct, st.leverage, st.maxMarginPct);
      if qty <= 0.0 {
        assert s == Step(eng, AddEventIn(db, Warn, QtyZeroSkip, inp.now), QtyZero);
        SkipSound(eng, db, Warn, QtyZeroSkip, inp.now, QtyZero);
      } else {
        var side := SideOf(Strategy.DecideSignal(inp.candles.value));
        var reference := if side == Buy then tv.ask else tv.bid;
        PlaceEntryEvolves(eng, db, st, cfg, side, reference, qty, inp);
      }
    }
  }

  /**
   * The gates in order: daily loss, then the trade count, then the cooldown. A gated
   * iteration leaves the trades and the engine alone and ends with its gate, or with
   * LOOP_ERROR when the closing sleep is given a negative interval.
   */
  lemma TickGates(eng: EngineState, db: Db, inp: TickInput)
    requires WellFormed(db) && OneOpenPerSymbol(db.trades) && inp.gateBalance.Ok?
    ensures var s := TickSpec(eng, db, inp);
            var e := ResetDaily(eng, inp.today);
            var st := SettingsOrDefault(db, inp.now);
            var loss := DailyLossHit(BalanceUsdt(inp.gateBalance.value), e.dailyPnl, st.maxDailyLossPct);
            var cap := !loss && e.tradesToday >= st.maxTradesPerDay;
            var cool := !loss && e.tradesToday < st.maxTradesPerDay && !CooldownOk(e.lastTradeTime, inp.now, st.cooldownMinutes);
            var slept := st.loopIntervalSec >= 0;
            && (s.outcome == DailyLossLimit <==> loss && slept)
            && (s.outcome == TradeCapReached <==> cap && slept)
            && (s.outcome == CoolingDown <==> cool && slept)
            && ((loss || cap || cool) && !slept ==> s.outcome == LoopError(SleepErrorMsg))
            && ((loss || cap || cool) ==> s.db.trades == db.trades && s.eng == e)
  {
    BodyGates(eng, db, inp);
  }

  /** The gates of the iteration body, before its closing sleep. */
  lemma BodyGates(eng: EngineState, db: Db, inp: TickInput)
    requires WellFormed(db) && OneOpenPerSymbol(db.trades) && inp.gateBalance.Ok?
    ensures var s := TickBody(eng, db, inp);
            var e := ResetDaily(eng, inp.today);
            var st := SettingsOrDefault(db, inp.now);
            var loss := DailyLossHit(BalanceUsdt(inp.gateBalance.value), e.dailyPnl, st.maxDailyLossPct);
            && (s.outcome == DailyLossLimit <==> loss)
            && (s.outcome == TradeCapReached <==> !loss && e.tradesToday >= st.maxTradesPerDay)
            && (s.outcome == CoolingDown <==>
                  !loss && e.tradesToday < st.maxTradesPerDay && !CooldownOk(e.lastTradeTime, inp.now, st.cooldownMinutes))
            && (IsGated(s.outcome) ==> s.db.trades == db.trades && s.eng == e)
  {
    var e := ResetDaily(eng, inp.today);
    var (db1, st) := GetOrCreateSettingsIn(db, inp.now);
    var open := GetOpenTradeIn(db1, st.symbol);
    if open.Some? {
      ManageSpecEvolves(e, db1, st, inp);
    } else {
      EntrySpecEvolves(e, db1, st, inp);
    }
  }

  /** With a trade open and the gates passed, the iteration only manages it: no signal, sizing or entry. */
  lemma OpenTradeOnlyMonitored(eng: EngineState, db: Db, inp: TickInput)
    requires WellFormed(db) && OneOpenPerSymbol(db.trades) && inp.gateBalance.Ok?
    requires var e := ResetDaily(eng, inp.today);
             var st := SettingsOrDefault(db, inp.now);
             && !DailyLossHit(BalanceUsdt(inp.gateBalance.value), e.dailyPnl, st.maxDailyLossPct)
             && e.tradesToday < st.maxTradesPerDay && CooldownOk(e.lastTradeTime, inp.now, st.cooldownMinutes)
             && GetOpenTradeIn(db, st.symbol).Some?
    ensures var s := TickSpec(eng, db, inp);
            var e := ResetDaily(eng, inp.today);
            && (s.outcome.Monitored? || s.outcome.LoopError?)
            && |s.db.trades| == |db.trades|
            && s.eng.tradesToday == e.tradesToday && s.eng.lastTradeTime == e.lastTradeTime
  {
    var e := ResetDaily(eng, inp.today);
    var (db1, st) := GetOrCreateSettingsIn(db, inp.now);
    ManageSpecEvolves(e, db1, st, inp);
  }

  /** Every iteration keeps ids in insertion order, one open trade per symbol, and only grows the store. */
  lemma TickInvariants(eng: EngineState, db: Db, inp: TickInput)
    requires WellFormed(db) && OneOpenPerSymbol(db.trades)
    ensures var s := TickSpec(eng, db, inp);
            && WellFormed(s.db) && OneOpenPerSymbol(s.db.trades) && Evolves(db, s.db)
            && (db.settings.Some? ==> s.db.settings == db.settings)
            && s.db.settings == Some(SettingsOrDefault(db, inp.now))
            && (s.outcome.Opened? <==> |s.db.trades| == |db.trades| + 1)
            && (!s.outcome.Opened? ==> |s.db.trades| == |db.trades|)
            && s.eng.running == eng.running && s.eng.dayStart == inp.today
  {
    var b := TickBody(eng, db, inp);
    BodyInvariants(eng, db, inp);
    SleepEvolves(b, SettingsOrDefault(db, inp.now).loopIntervalSec, inp.now);
    EvolvesTrans(db, b.db, TickSpec(eng, db, inp).db);
  }

  /** The same invariants for the iteration body, before its closing sleep. */
  lemma BodyInvariants(eng: EngineState, db: Db, inp: TickInput)
    requires WellFormed(db) && OneOpenPerSymbol(db.trades)
    ensures var s := TickBody(eng, db, inp);
            && WellFormed(s.db) && OneOpenPerSymbol(s.db.trades) && Evolves(db, s.db)
            && (db.settings.Some? ==> s.db.settings == db.settings)
            && s.db.settings == Some(SettingsOrDefault(db, inp.now))
            && (s.outcome.Opened? <==> |s.db.trades| == |db.trades| + 1)
            && (!s.outcome.Opened? ==> |s.db.trades| == |db.trades|)
            && s.eng.running == eng.running && s.eng.dayStart == inp.today
  {
    var s := TickBody(eng, db, inp);
    var e := ResetDaily(eng, inp.today);
    var (db1, st) := GetOrCreateSettingsIn(db, inp.now);
    EvolvesRefl(db);
    assert Evolves(db, db1);
    if inp.gateBalance.Err? {
      FailEvolves(e, db1, inp.now, inp.gateBalance.msg);
      EvolvesTrans(db, db1, s.db);
    } else if DailyLossHit(BalanceUsdt(inp.gateBalance.value), e.dailyPnl, st.maxDailyLossPct) {
      AddEventEvolves(db1, Warn, DailyLossLimitHit, inp.now);
      EvolvesTrans(db, db1, s.db);
    } else if e.tradesToday >= st.maxTradesPerDay || !CooldownOk(e.lastTradeTime, inp.now, st.cooldownMinutes) {
    } else if GetOpenTradeIn(db1, st.symbol).Some? {
      ManageSpecEvolves(e, db1, st, inp);
      EvolvesTrans(db, db1, s.db);
    } else {
      EntrySpecEvolves(e, db1, st, inp);
      EvolvesTrans(db, db1, s.db);
    }
  }

  /** An entry's facts: all gates passed, nothing was open on the symbol, and the new row is the bracketed open trade. */
  lemma OpenedTradeFacts(eng: EngineState, db: Db, inp: TickInput)
    requires WellFormed(db) && OneOpenPerSymbol(db.trades)
    requires TickSpec(eng, db, inp).outcome.Opened?
    ensures var s := TickSpec(eng, db, inp);
            var t := s.outcome.trade;
            var e := ResetDaily(eng, inp.today);
            var st := SettingsOrDefault(db, inp.now);
            && st.entry.Some? && inp.gateBalance.Ok?
            && !DailyLossHit(BalanceUsdt(inp.gateBalance.value), e.dailyPnl, st.maxDailyLossPct)
            && e.tradesToday < st.maxTradesPerDay && CooldownOk(e.lastTradeTime, inp.now, st.cooldownMinutes)
            && GetOpenTradeIn(db, st.symbol).None?
            && |s.db.trades| == |db.trades| + 1 && s.db.trades[|db.trades|] == t
            && t.id == Some(|db.trades| + 1) && t.status == Open && t.symbol == st.symbol && t.ts == inp.now
            && t.qty > 0.0 && (t.sl, t.tp) == Bracket(t.side, t.entry, st.slPct, st.tpPct)
            && t.exitPrice.None? && t.pnlUsdt.None?
            && s.eng == e.(lastTradeTime := Some(inp.now), tradesToday := e.tradesToday + 1, bestPrice := None)
  {
    SleepEvolves(TickBody(eng, db, inp), SettingsOrDefault(db, inp.now).loopIntervalSec, inp.now);
    BodyOpenedFacts(eng, db, inp);
  }

  /** The same facts for the iteration body, before its closing sleep. */
  lemma BodyOpenedFacts(eng: EngineState, db: Db, inp: TickInput)
    requires WellFormed(db) && OneOpenPerSymbol(db.trades)
    requires TickBody(eng, db, inp).outcome.Opened?
    ensures var s := TickBody(eng, db, inp);
            var t := s.outcome.trade;
            var e := ResetDaily(eng, inp.today);
            var st := SettingsOrDefault(db, inp.now);
            && st.entry.Some? && inp.gateBalance.Ok?
            && !DailyLossHit(BalanceUsdt(inp.gateBalance.value), e.dailyPnl, st.maxDailyLossPct)
            && e.tradesToday < st.maxTradesPerDay && CooldownOk(e.lastTradeTime, inp.now, st.cooldownMinutes)
            && GetOpenTradeIn(db, st.symbol).None?
            && |s.db.trades| == |db.trades| + 1 && s.db.trades[|db.trades|] == t
            && t.id == Some(|db.trades| + 1) && t.status == Open && t.symbol == st.symbol && t.ts == inp.now
            && t.qty > 0.0 && (t.sl, t.tp) == Bracket(t.side, t.entry, st.slPct, st.tpPct)
            && t.exitPrice.None? && t.pnlUsdt.None?
            && s.eng == e.(lastTradeTime := Some(inp.now), tradesToday := e.tradesToday + 1, bestPrice := None)
  {
    var e := ResetDaily(eng, inp.today);
    var (db1, st) := GetOrCreateSettingsIn(db, inp.now);
    BodyGates(eng, db, inp);
    if GetOpenTradeIn(db1, st.symbol).Some? {
      ManageSpecEvolves(e, db1, st, inp);
    }
    var cfg := st.entry.value;
    var tv := Ticker(st.symbol, inp.ticker.value);
    var side := SideOf(Strategy.DecideSignal(inp.candles.value));
    var reference := if side == Buy then tv.ask else tv.bid;
    var qty := CalcQty(tv.last, BalanceUsdt(inp.sizingBalance.value), st.riskPct, st.slPct, st.leverage, st.maxMarginPct);
    FilledEntryOpens(e, db1, st, cfg, side, reference, qty, inp);
    var r := EntryFill(cfg, inp).value;
    EntryTradeFacts(st, side, qty, FillPrice(r.fill.average, reference), r.order, r.fill.feeCost, inp.now);
  }

  /** Any iteration that does not record an entry adds no trade. */
  lemma NoEntryNoNewTrade(eng: EngineState, db: Db, inp: TickInput)
    requires WellFormed(db) && OneOpenPerSymbol(db.trades)
    requires !TickSpec(eng, db, inp).outcome.Opened?
    ensures |TickSpec(eng, db, inp).db.trades| == |db.trades|
    ensures TickSpec(eng, db, inp).eng.tradesToday == ResetDaily(eng, inp.today).tradesToday
  {
    SleepEvolves(TickBody(eng, db, inp), SettingsOrDefault(db, inp.now).loopIntervalSec, inp.now);
    BodyNoEntryNoNewTrade(eng, db, inp);
  }

  /** The same for the iteration body, before its closing sleep. */
  lemma BodyNoEntryNoNewTrade(eng: EngineState, db: Db, inp: TickInput)
    requires WellFormed(db) && OneOpenPerSymbol(db.trades)
    requires !TickBody(eng, db, inp).outcome.Opened?
    ensures |TickBody(eng, db, inp).db.trades| == |db.trades|
    ensures TickBody(eng, db, inp).eng.tradesToday == ResetDaily(eng, inp.today).tradesToday
  {
    var e := ResetDaily(eng, inp.today);
    var (db1, st) := GetOrCreateSettingsIn(db, inp.now);
    BodyInvariants(eng, db, inp);
    if GetOpenTradeIn(db1, st.symbol).Some? {
      ManageSpecEvolves(e, db1, st, inp);
    } else {
      EntrySpecEvolves(e, db1, st, inp);
    }
  }

  /**
   * With the settings row as the table declares it (no entry-execution fields) the
   * entry path fails on the spread filter, so no iteration ever records a trade.
   */
  lemma UndeclaredEntryFieldsBlockEntries(eng: EngineState, db: Db, inp: TickInput)
    requires SettingsOrDefault(db, inp.now).entry.None?
    ensures !TickSpec(eng, db, inp).outcome.Opened?
  {
  }

  /** Every settings row the store creates or updates lacks the entry-execution fields. */
  lemma StoredSettingsLackEntryFields(db: Db, payload: seq<(string, Value)>, now: Instant)
    requires db.settings.None? || db.settings.value.entry.None?
    ensures SettingsOrDefault(db, now).entry.None?
    ensures UpdateSettingsIn(db, payload, now).1.entry.None?
  {
  }

  /**
   * The cooldown gate runs before the open-trade lookup: for `cooldown_minutes` after
   * an entry the new trade is not monitored, whatever the price does.
   */
  lemma CooldownAfterEntryBlocksMonitoring(eng: EngineState, db: Db, inp: TickInput, next: TickInput)
    requires WellFormed(db) && OneOpenPerSymbol(db.trades)
    requires TickSpec(eng, db, inp).outcome.Opened?
    requires inp.now <= next.now < inp.now + SettingsOrDefault(db, inp.now).cooldownMinutes * MicrosPerMinute
    ensures var s := TickSpec(eng, db, inp);
            var s2 := TickSpec(s.eng, s.db, next);
            && !s2.outcome.Monitored? && !s2.outcome.Opened?
            && s2.db.trades == s.db.trades
  {
    var s := TickSpec(eng, db, inp);
    OpenedTradeFacts(eng, db, inp);
    TickInvariants(eng, db, inp);
    assert SettingsOrDefault(s.db, next.now) == SettingsOrDefault(db, inp.now);
    if next.gateBalance.Ok? {
      TickInvariants(s.eng, s.db, next);
      TickGates(s.eng, s.db, next);
    }
  }

  /** On a new day the trade cap and the daily-loss gate are cleared for that iteration. */
  lemma RolloverClearsDailyGates(eng: EngineState, db: Db, inp: TickInput)
    requires WellFormed(db) && OneOpenPerSymbol(db.trades)
    requires inp.today != eng.dayStart && inp.gateBalance.Ok?
    ensures var st := SettingsOrDefault(db, inp.now);
            var o := TickSpec(eng, db, inp).outcome;
            && (st.maxTradesPerDay > 0 ==> o != TradeCapReached)
            && (st.maxDailyLossPct > 0.0 ==> o != DailyLossLimit)
  {
    TickGates(eng, db, inp);
  }

  /**
   * The exit test uses the stop the trade was read with: a long from 100 with stop
   * 98.5, best price 105 and price 101 gets its stop trailed to 104.37, above the
   * price, yet stays open in that iteration.
   */
  lemma StaleStopExample(eng: EngineState, db: Db, st: Settings, inp: TickInput, k: nat)
    requires WellFormed(db) && k < |db.trades|
    requires var t := db.trades[k];
             t.side == Buy && t.entry == 100.0 && t.sl == 98.5 && t.tp == 110.0 && t.status == Open
    requires eng.bestPrice == Some(105.0)
    requires st.trailingEnabled && st.trailingActivationPct == 0.8 && st.trailingPct == 0.6
    requires inp.ticker.Ok? && inp.ticker.value.last == Some(101.0)
    ensures var s := ManageSpec(eng, db, st, db.trades[k], inp);
            && s.outcome == Monitored(None)
            && s.db.trades[k].sl == 104.37 && s.db.trades[k].status == Open
            && HitSl(Buy, 101.0, s.db.trades[k].sl)
  {
    var t := db.trades[k];
    assert t.id == Some(k + 1);
    IndexOfWellFormed(db, k + 1);
    assert ProfitPct(Buy, 100.0, 101.0) == 1.0;
    assert 105.0 * (1.0 - 0.6 / 100.0) == 104.37;
    SetSlUpdate(t, 104.37);
  }

  /** `start` twice is `start` once. */
  lemma StartIdempotent(eng: EngineState, db: Db, now: Instant, later: Instant)
    ensures var (e1, db1) := StartSpec(eng, db, now);
            StartSpec(e1, db1, later) == (e1, db1)
  {
  }

  /** Running the loop keeps the store invariants over any number of iterations. */
  lemma {:induction false} RunInvariants(eng: EngineState, db: Db, inputs: seq<TickInput>)
    requires WellFormed(db) && OneOpenPerSymbol(db.trades)
    ensures var (e, db2) := RunSpec(eng, db, inputs);
            WellFormed(db2) && OneOpenPerSymbol(db2.trades) && Evolves(db, db2) && e.running == eng.running
    decreases |inputs|
  {
    if !eng.running || inputs == [] {
      EvolvesRefl(db);
    } else {
      var s := TickSpec(eng, db, inputs[0]);
      TickInvariants(eng, db, inputs[0]);
      RunInvariants(s.eng, s.db, inputs[1..]);
      EvolvesTrans(db, s.db, RunSpec(s.eng, s.db, inputs[1..]).1);
    }
  }
}
