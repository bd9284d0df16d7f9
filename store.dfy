/**
 * The persistence layer: one settings row, the trades table and the append-only
 * events table, held in memory. `Db` is the value of the whole store; the
 * functions below give the effect of each repository call on it, and the class
 * `Store` performs those calls in place.
 */
module Store {
  import opened Base
  import opened Models

  /** A value of a settings payload (a decoded JSON value). */
  datatype Value = VInt(i: int) | VReal(r: real) | VBool(b: bool) | VStr(s: string) | VOther

  /** The attributes of Settings a payload may assign. */
  datatype SettingsField =
    | LoopIntervalSec | RiskPct | SlPct | TpPct | MaxTradesPerDay | CooldownMinutes
    | NewsBlackoutMinutes | Leverage | Symbol | Timeframe | MaxMarginPct | MaxDailyLossPct
    | NewsEnabled | TrailingEnabled | TrailingActivationPct | TrailingPct

  /** The attribute name of a field. */
  function FieldName(f: SettingsField): string
  {
    match f
    case LoopIntervalSec => "loop_interval_sec"
    case RiskPct => "risk_pct"
    case SlPct => "sl_pct"
    case TpPct => "tp_pct"
    case MaxTradesPerDay => "max_trades_per_day"
    case CooldownMinutes => "cooldown_minutes"
    case NewsBlackoutMinutes => "news_blackout_minutes"
    case Leverage => "leverage"
    case Symbol => "symbol"
    case Timeframe => "timeframe"
    case MaxMarginPct => "max_margin_pct"
    case MaxDailyLossPct => "max_daily_loss_pct"
    case NewsEnabled => "news_enabled"
    case TrailingEnabled => "trailing_enabled"
    case TrailingActivationPct => "trailing_activation_pct"
    case TrailingPct => "trailing_pct"
  }

  /** `hasattr(s, key)`: the field a payload key names, if it names one. */
  function FieldOf(key: string): Option<SettingsField>
  {
    if key == "loop_interval_sec" then Some(LoopIntervalSec)
    else if key == "risk_pct" then Some(RiskPct)
    else if key == "sl_pct" then Some(SlPct)
    else if key == "tp_pct" then Some(TpPct)
    else if key == "max_trades_per_day" then Some(MaxTradesPerDay)
    else if key == "cooldown_minutes" then Some(CooldownMinutes)
    else if key == "news_blackout_minutes" then Some(NewsBlackoutMinutes)
    else if key == "leverage" then Some(Leverage)
    else if key == "symbol" then Some(Symbol)
    else if key == "timeframe" then Some(Timeframe)
    else if key == "max_margin_pct" then Some(MaxMarginPct)
    else if key == "max_daily_loss_pct" then Some(MaxDailyLossPct)
    else if key == "news_enabled" then Some(NewsEnabled)
    else if key == "trailing_enabled" then Some(TrailingEnabled)
    else if key == "trailing_activation_pct" then Some(TrailingActivationPct)
    else if key == "trailing_pct" then Some(TrailingPct)
    else None
  }

  /** A key that names a field is that field's attribute name. */
  lemma FieldOfSound(key: string)
    ensures FieldOf(key).Some? ==> key == FieldName(FieldOf(key).value)
  {
    if key == "loop_interval_sec" {
      assert FieldOf(key) == Some(LoopIntervalSec);
    } else if key == "risk_pct" {
      assert FieldOf(key) == Some(RiskPct);
    } else if key == "sl_pct" {
      assert FieldOf(key) == Some(SlPct);
    } else if key == "tp_pct" {
      assert FieldOf(key) == Some(TpPct);
    } else if key == "max_trades_per_day" {
      assert FieldOf(key) == Some(MaxTradesPerDay);
    } else if key == "cooldown_minutes" {
      assert FieldOf(key) == Some(CooldownMinutes);
    } else if key == "news_blackout_minutes" {
      assert FieldOf(key) == Some(NewsBlackoutMinutes);
    } else if key == "leverage" {
      assert FieldOf(key) == Some(Leverage);
    } else if key == "symbol" {
      assert FieldOf(key) == Some(Symbol);
    } else if key == "timeframe" {
      assert FieldOf(key) == Some(Timeframe);
    } else if key == "max_margin_pct" {
      assert FieldOf(key) == Some(MaxMarginPct);
    } else if key == "max_daily_loss_pct" {
      assert FieldOf(key) == Some(MaxDailyLossPct);
    } else if key == "news_enabled" {
      assert FieldOf(key) == Some(NewsEnabled);
    } else if key == "trailing_enabled" {
      assert FieldOf(key) == Some(TrailingEnabled);
    } else if key == "trailing_activation_pct" {
      assert FieldOf(key) == Some(TrailingActivationPct);
    } else if key == "trailing_pct" {
      assert FieldOf(key) == Some(TrailingPct);
    } else {
      assert FieldOf(key).None?;
    }
  }

  /** Every field is found under its attribute name. */
  lemma FieldOfComplete(f: SettingsField)
    ensures FieldOf(FieldName(f)) == Some(f)
  {
    if f.LoopIntervalSec? || f.RiskPct? || f.SlPct? || f.TpPct? {
      FieldOfCompletePart1(f);
    } else if f.MaxTradesPerDay? || f.CooldownMinutes? || f.NewsBlackoutMinutes? || f.Leverage? {
      FieldOfCompletePart2(f);
    } else if f.Symbol? || f.Timeframe? || f.MaxMarginPct? || f.MaxDailyLossPct? {
      FieldOfCompletePart3(f);
    } else {
      FieldOfCompletePart4(f);
    }
  }

  lemma FieldOfCompletePart1(f: SettingsField)
    requires f.LoopIntervalSec? || f.RiskPct? || f.SlPct? || f.TpPct?
    ensures FieldOf(FieldName(f)) == Some(f)
  {
  }

  lemma FieldOfCompletePart2(f: SettingsField)
    requires f.MaxTradesPerDay? || f.CooldownMinutes? || f.NewsBlackoutMinutes? || f.Leverage?
    ensures FieldOf(FieldName(f)) == Some(f)
  {
  }

  lemma FieldOfCompletePart3(f: SettingsField)
    requires f.Symbol? || f.Timeframe? || f.MaxMarginPct? || f.MaxDailyLossPct?
    ensures FieldOf(FieldName(f)) == Some(f)
  {
  }

  lemma FieldOfCompletePart4(f: SettingsField)
    requires f.NewsEnabled? || f.TrailingEnabled? || f.TrailingActivationPct? || f.TrailingPct?
    ensures FieldOf(FieldName(f)) == Some(f)
  {
  }

  /** The current value of a field. */
  function Get(s: Settings, f: SettingsField): Value
  {
    match f
    case LoopIntervalSec => VInt(s.loopIntervalSec)
    case RiskPct => VReal(s.riskPct)
    case SlPct => VReal(s.slPct)
    case TpPct => VReal(s.tpPct)
    case MaxTradesPerDay => VInt(s.maxTradesPerDay)
    case CooldownMinutes => VInt(s.cooldownMinutes)
    case NewsBlackoutMinutes => VInt(s.newsBlackoutMinutes)
    case Leverage => VInt(s.leverage)
    case Symbol => VStr(s.symbol)
    case Timeframe => VStr(s.timeframe)
    case MaxMarginPct => VReal(s.maxMarginPct)
    case MaxDailyLossPct => VReal(s.maxDailyLossPct)
    case NewsEnabled => VBool(s.newsEnabled)
    case TrailingEnabled => VBool(s.trailingEnabled)
    case TrailingActivationPct => VReal(s.trailingActivationPct)
    case TrailingPct => VReal(s.trailingPct)
  }

  predicate IsRealField(f: SettingsField)
  {
    f in {RiskPct, SlPct, TpPct, MaxMarginPct, MaxDailyLossPct, TrailingActivationPct, TrailingPct}
  }

  predicate IsIntField(f: SettingsField)
  {
    f in {LoopIntervalSec, MaxTradesPerDay, CooldownMinutes, NewsBlackoutMinutes, Leverage}
  }

  predicate IsBoolField(f: SettingsField)
  {
    f in {NewsEnabled, TrailingEnabled}
  }

  /** The value has the field's type (an integer is accepted for a float field). */
  predicate Fits(f: SettingsField, v: Value)
  {
    if IsRealField(f) then v.VReal? || v.VInt?
    else if IsIntField(f) then v.VInt?
    else if IsBoolField(f) then v.VBool?
    else v.VStr?
  }

  /** The value as the field holds it. */
  function Coerced(f: SettingsField, v: Value): Value
  {
    if IsRealField(f) && v.VInt? then VReal(v.i as real) else v
  }

  /** `setattr(s, field, v)` for a value of the field's type. */
  function Assign(s: Settings, f: SettingsField, v: Value): (r: Settings)
    ensures r.id == s.id && r.updatedAt == s.updatedAt && r.entry == s.entry
    ensures Fits(f, v) ==> Get(r, f) == Coerced(f, v)
    ensures !Fits(f, v) ==> r == s
  {
    if !Fits(f, v) then s
    else
      var x := if v.VInt? then v.i as real else if v.VReal? then v.r else 0.0;
      match f
      case LoopIntervalSec => s.(loopIntervalSec := v.i)
      case RiskPct => s.(riskPct := x)
      case SlPct => s.(slPct := x)
      case TpPct => s.(tpPct := x)
      case MaxTradesPerDay => s.(maxTradesPerDay := v.i)
      case CooldownMinutes => s.(cooldownMinutes := v.i)
      case NewsBlackoutMinutes => s.(newsBlackoutMinutes := v.i)
      case Leverage => s.(leverage := v.i)
      case Symbol => s.(symbol := v.s)
      case Timeframe => s.(timeframe := v.s)
      case MaxMarginPct => s.(maxMarginPct := x)
      case MaxDailyLossPct => s.(maxDailyLossPct := x)
      case NewsEnabled => s.(newsEnabled := v.b)
      case TrailingEnabled => s.(trailingEnabled := v.b)
      case TrailingActivationPct => s.(trailingActivationPct := x)
      case TrailingPct => s.(trailingPct := x)
  }

  /** Assigning one field leaves every other field as it was. */
  lemma AssignFrame(s: Settings, f: SettingsField, v: Value, g: SettingsField)
    requires g != f
    ensures Get(Assign(s, f, v), g) == Get(s, g)
  {
  }

  /** One `if hasattr(s, k): setattr(s, k, v)` step. */
  function SetAttr(s: Settings, key: string, v: Value): Settings
  {
    match FieldOf(key)
    case None => s
    case Some(f) => Assign(s, f, v)
  }

  /** The loop over the payload's items, in order; it never touches the row id, the timestamp or the entry configuration. */
  function ApplyPayload(s: Settings, payload: seq<(string, Value)>): (r: Settings)
    ensures r.id == s.id && r.updatedAt == s.updatedAt && r.entry == s.entry
    decreases |payload|
  {
    if payload == [] then s
    else SetAttr(ApplyPayload(s, payload[..|payload| - 1]), payload[|payload| - 1].0, payload[|payload| - 1].1)
  }

  /** A field no payload key names keeps its value. */
  lemma {:induction false} PayloadLeavesOtherFields(s: Settings, payload: seq<(string, Value)>, f: SettingsField)
    requires forall i :: 0 <= i < |payload| ==> payload[i].0 != FieldName(f)
    ensures Get(ApplyPayload(s, payload), f) == Get(s, f)
    decreases |payload|
  {
    if payload != [] {
      var init := payload[..|payload| - 1];
      PayloadLeavesOtherFields(s, init, f);
      var key := payload[|payload| - 1].0;
      FieldOfSound(key);
      if FieldOf(key).Some? {
        AssignFrame(ApplyPayload(s, init), FieldOf(key).value, payload[|payload| - 1].1, f);
      }
    }
  }

  /** A payload whose keys name no attribute changes nothing. */
  lemma {:induction false} PayloadIgnoresUnknownKeys(s: Settings, payload: seq<(string, Value)>)
    requires forall i :: 0 <= i < |payload| ==> FieldOf(payload[i].0).None?
    ensures ApplyPayload(s, payload) == s
    decreases |payload|
  {
    if payload != [] {
      PayloadIgnoresUnknownKeys(s, payload[..|payload| - 1]);
    }
  }

  /** Item `k` of the payload names `f` with a value of its type, and no later item names `f`. */
  predicate LastNaming(payload: seq<(string, Value)>, k: nat, f: SettingsField)
    requires k < |payload|
  {
    && payload[k].0 == FieldName(f) && Fits(f, payload[k].1)
    && forall j :: k < j < |payload| ==> payload[j].0 != FieldName(f)
  }

  /** A field takes the value of the last payload item that names it. */
  lemma {:induction false} PayloadLastWins(s: Settings, payload: seq<(string, Value)>, f: SettingsField, k: nat)
    requires k < |payload| && LastNaming(payload, k, f)
    ensures Get(ApplyPayload(s, payload), f) == Coerced(f, payload[k].1)
    decreases |payload|
  {
    var n := |payload| - 1;
    var init := payload[..n];
    assert ApplyPayload(s, payload) == SetAttr(ApplyPayload(s, init), payload[n].0, payload[n].1);
    if k == n {
      FieldOfComplete(f);
    } else {
      assert LastNaming(init, k, f);
      PayloadLastWins(s, init, f, k);
      var key := payload[n].0;
      FieldOfSound(key);
      if FieldOf(key).Some? {
        AssignFrame(ApplyPayload(s, init), FieldOf(key).value, payload[n].1, f);
      }
    }
  }

  /** The whole store. Rows are kept in insertion order. */
  datatype Db = Db(settings: Option<Settings>, trades: seq<Trade>, events: seq<Event>)

  /** Ids are assigned 1, 2, ... in insertion order and the settings row has id 1. */
  ghost predicate WellFormed(db: Db)
  {
    && (db.settings.Some? ==> db.settings.value.id == 1)
    && (forall i :: 0 <= i < |db.trades| ==> db.trades[i].id == Some(i + 1))
    && (forall i :: 0 <= i < |db.events| ==> db.events[i].id == i + 1)
  }

  /** The stored settings row, or the default row `get_or_create_settings` would insert. */
  function SettingsOrDefault(db: Db, now: Instant): Settings
  {
    if db.settings.Some? then db.settings.value else DefaultSettings(now)
  }

  /** `get_or_create_settings`. */
  function GetOrCreateSettingsIn(db: Db, now: Instant): (r: (Db, Settings))
    ensures db.settings.Some? ==> r.0 == db && r.1 == db.settings.value
    ensures db.settings.None? ==> r.1 == DefaultSettings(now) && r.0 == db.(settings := Some(r.1))
    ensures r.0.settings == Some(r.1) && r.0.trades == db.trades && r.0.events == db.events
    ensures WellFormed(db) ==> WellFormed(r.0)
  {
    var s := SettingsOrDefault(db, now);
    (db.(settings := Some(s)), s)
  }

  /** Running `get_or_create_settings` a second time changes nothing. */
  lemma GetOrCreateIdempotent(db: Db, now: Instant, later: Instant)
    ensures var (db1, s1) := GetOrCreateSettingsIn(db, now);
            GetOrCreateSettingsIn(db1, later) == (db1, s1)
  {
  }

  /** No field a payload can name is the `updated_at` stamp. */
  lemma GetIgnoresStamp(s: Settings, now: Instant, f: SettingsField)
    ensures Get(s.(updatedAt := now), f) == Get(s, f)
  {}

  /** `update_settings`: assign the payload's known keys, then stamp `updated_at`. */
  function UpdateSettingsIn(db: Db, payload: seq<(string, Value)>, now: Instant): (r: (Db, Settings))
    ensures r.0 == db.(settings := Some(r.1))
    ensures r.1.updatedAt == now
    ensures r.1.id == SettingsOrDefault(db, now).id && r.1.entry == SettingsOrDefault(db, now).entry
    ensures forall f :: (forall i :: 0 <= i < |payload| ==> payload[i].0 != FieldName(f)) ==>
              Get(r.1, f) == Get(SettingsOrDefault(db, now), f)
    ensures forall f, k :: 0 <= k < |payload| && LastNaming(payload, k, f) ==>
              Get(r.1, f) == Coerced(f, payload[k].1)
    ensures WellFormed(db) ==> WellFormed(r.0)
  {
    var base := SettingsOrDefault(db, now);
    var s := ApplyPayload(base, payload).(updatedAt := now);
    forall f | forall i :: 0 <= i < |payload| ==> payload[i].0 != FieldName(f)
      ensures Get(s, f) == Get(base, f)
    {
      PayloadLeavesOtherFields(base, payload, f);
      GetIgnoresStamp(ApplyPayload(base, payload), now, f);
    }
    forall f, k | 0 <= k < |payload| && LastNaming(payload, k, f)
      ensures Get(s, f) == Coerced(f, payload[k].1)
    {
      PayloadLastWins(base, payload, f, k);
      GetIgnoresStamp(ApplyPayload(base, payload), now, f);
    }
    (db.(settings := Some(s)), s)
  }

  /** `add_event`: append one row with the next id. */
  function AddEventIn(db: Db, level: Level, kind: EventType, now: Instant): (r: Db)
    ensures r.settings == db.settings && r.trades == db.trades
    ensures |r.events| == |db.events| + 1 && r.events[..|db.events|] == db.events
    ensures r.events[|db.events|] == Event(|db.events| + 1, now, level, kind)
    ensures WellFormed(db) ==> WellFormed(r)
  {
    db.(events := db.events + [Event(|db.events| + 1, now, level, kind)])
  }

  /** `add_trade`: append the trade under the next id. */
  function AddTradeIn(db: Db, t: Trade): (r: (Db, Trade))
    ensures r.1 == t.(id := Some(|db.trades| + 1))
    ensures r.0.settings == db.settings && r.0.events == db.events
    ensures |r.0.trades| == |db.trades| + 1 && r.0.trades[..|db.trades|] == db.trades
    ensures r.0.trades[|db.trades|] == r.1
    ensures WellFormed(db) ==> WellFormed(r.0)
  {
    var saved := t.(id := Some(|db.trades| + 1));
    (db.(trades := db.trades + [saved]), saved)
  }

  /**
   * A keyword argument of `update_trade`, one per column of the Trade table except
   * `id`; `SetUnknown` names no Trade attribute (the three entry-order keywords of
   * the engine's constructor call among them, since the table declares no such columns).
   */
  datatype TradeUpdate =
    | SetTs(ts: Instant)
    | SetSymbol(symbol: string)
    | SetSide(side: Side)
    | SetQty(qty: real)
    | SetEntry(entry: real)
    | SetSl(sl: real)
    | SetTp(tp: real)
    | SetExitPrice(exitPrice: Option<real>)
    | SetPnlUsdt(pnlUsdt: Option<real>)
    | SetStatus(status: TradeStatus)
    | SetNote(note: string)
    | SetUnknown(key: string)

  /** One `if hasattr(t, k): setattr(t, k, v)` step. */
  function ApplyTradeUpdate(t: Trade, u: TradeUpdate): Trade
  {
    match u
    case SetTs(x) => t.(ts := x)
    case SetSymbol(x) => t.(symbol := x)
    case SetSide(x) => t.(side := x)
    case SetQty(x) => t.(qty := x)
    case SetEntry(x) => t.(entry := x)
    case SetSl(x) => t.(sl := x)
    case SetTp(x) => t.(tp := x)
    case SetExitPrice(x) => t.(exitPrice := x)
    case SetPnlUsdt(x) => t.(pnlUsdt := x)
    case SetStatus(x) => t.(status := x)
    case SetNote(x) => t.(note := x)
    case SetUnknown(_) => t
  }

  /** The columns of the Trade table a keyword can name. */
  datatype TradeColumn =
    | TsCol | SymbolCol | SideCol | QtyCol | EntryCol | SlCol | TpCol
    | ExitPriceCol | PnlCol | StatusCol | NoteCol

  /** The keyword `u` names column `c`. */
  predicate Names(u: TradeUpdate, c: TradeColumn)
  {
    match u
    case SetTs(_) => c == TsCol
    case SetSymbol(_) => c == SymbolCol
    case SetSide(_) => c == SideCol
    case SetQty(_) => c == QtyCol
    case SetEntry(_) => c == EntryCol
    case SetSl(_) => c == SlCol
    case SetTp(_) => c == TpCol
    case SetExitPrice(_) => c == ExitPriceCol
    case SetPnlUsdt(_) => c == PnlCol
    case SetStatus(_) => c == StatusCol
    case SetNote(_) => c == NoteCol
    case SetUnknown(_) => false
  }

  /** Trades `a` and `b` agree on column `c`. */
  predicate SameColumn(a: Trade, b: Trade, c: TradeColumn)
  {
    match c
    case TsCol => a.ts == b.ts
    case SymbolCol => a.symbol == b.symbol
    case SideCol => a.side == b.side
    case QtyCol => a.qty == b.qty
    case EntryCol => a.entry == b.entry
    case SlCol => a.sl == b.sl
    case TpCol => a.tp == b.tp
    case ExitPriceCol => a.exitPrice == b.exitPrice
    case PnlCol => a.pnlUsdt == b.pnlUsdt
    case StatusCol => a.status == b.status
    case NoteCol => a.note == b.note
  }

  /** The keywords the engine itself sends: the trailed stop and the close. */
  predicate IsEngineKeyword(u: TradeUpdate)
  {
    u.SetSl? || u.SetExitPrice? || u.SetPnlUsdt? || u.SetStatus? || u.SetUnknown?
  }

  /**
   * The loop over `fields.items()`, in order. It never changes the id (no keyword
   * names it here) nor the entry-order values, which are no attributes of the table.
   */
  function ApplyTradeUpdates(t: Trade, us: seq<TradeUpdate>): (r: Trade)
    ensures r.id == t.id
    ensures r.entryOrderId == t.entryOrderId && r.entryAvgFill == t.entryAvgFill && r.entryFeeUsdt == t.entryFeeUsdt
    decreases |us|
  {
    if us == [] then t else ApplyTradeUpdate(ApplyTradeUpdates(t, us[..|us| - 1]), us[|us| - 1])
  }

  /** The columns the engine's own updates never name, and the id. */
  predicate SameIdentity(a: Trade, b: Trade)
  {
    && a.id == b.id && a.ts == b.ts && a.symbol == b.symbol && a.side == b.side
    && a.qty == b.qty && a.entry == b.entry && a.tp == b.tp && a.note == b.note
    && a.entryOrderId == b.entryOrderId && a.entryAvgFill == b.entryAvgFill
    && a.entryFeeUsdt == b.entryFeeUsdt
  }

  /**
   * Updates made of the engine's keywords change only the stop, the exit price, the
   * PnL and the status; unknown keys change nothing.
   */
  lemma {:induction false} TradeUpdatesFrame(t: Trade, us: seq<TradeUpdate>)
    ensures (forall i :: 0 <= i < |us| ==> IsEngineKeyword(us[i])) ==> SameIdentity(t, ApplyTradeUpdates(t, us))
    ensures (forall i :: 0 <= i < |us| ==> !us[i].SetSl?) ==> ApplyTradeUpdates(t, us).sl == t.sl
    ensures (forall i :: 0 <= i < |us| ==> us[i].SetUnknown?) ==> ApplyTradeUpdates(t, us) == t
    decreases |us|
  {
    if us != [] {
      TradeUpdatesFrame(t, us[..|us| - 1]);
    }
  }

  /** One keyword leaves every column it does not name. */
  lemma UnnamedColumnKept(a: Trade, u: TradeUpdate, c: TradeColumn)
    requires !Names(u, c)
    ensures SameColumn(a, ApplyTradeUpdate(a, u), c)
  {
    match c
    case TsCol => assert !u.SetTs?;
    case SymbolCol => assert !u.SetSymbol?;
    case SideCol => assert !u.SetSide?;
    case QtyCol => assert !u.SetQty?;
    case EntryCol => assert !u.SetEntry?;
    case SlCol => assert !u.SetSl?;
    case TpCol => assert !u.SetTp?;
    case ExitPriceCol => assert !u.SetExitPrice?;
    case PnlCol => assert !u.SetPnlUsdt?;
    case StatusCol => assert !u.SetStatus?;
    case NoteCol => assert !u.SetNote?;
  }

  /** The column a keyword names gets the keyword's value, whatever the trade. */
  lemma NamedColumnSet(a: Trade, b: Trade, u: TradeUpdate, c: TradeColumn)
    requires Names(u, c)
    ensures SameColumn(ApplyTradeUpdate(a, u), ApplyTradeUpdate(b, u), c)
  {
    match u
    case SetTs(_) =>
    case SetSymbol(_) =>
    case SetSide(_) =>
    case SetQty(_) =>
    case SetEntry(_) =>
    case SetSl(_) =>
    case SetTp(_) =>
    case SetExitPrice(_) =>
    case SetPnlUsdt(_) =>
    case SetStatus(_) =>
    case SetNote(_) =>
  }

  lemma SameColumnTrans(a: Trade, b: Trade, d: Trade, c: TradeColumn)
    requires SameColumn(a, b, c) && SameColumn(b, d, c)
    ensures SameColumn(a, d, c)
  {
    match c
    case TsCol =>
    case SymbolCol =>
    case SideCol =>
    case QtyCol =>
    case EntryCol =>
    case SlCol =>
    case TpCol =>
    case ExitPriceCol =>
    case PnlCol =>
    case StatusCol =>
    case NoteCol =>
  }

  /** A column no keyword names keeps its value. */
  lemma {:induction false} TradeUpdateColumnFrame(t: Trade, us: seq<TradeUpdate>, c: TradeColumn)
    requires forall i :: 0 <= i < |us| ==> !Names(us[i], c)
    ensures SameColumn(t, ApplyTradeUpdates(t, us), c)
    decreases |us|
  {
    if us != [] {
      var n := |us| - 1;
      TradeUpdateColumnFrame(t, us[..n], c);
      var prev := ApplyTradeUpdates(t, us[..n]);
      UnnamedColumnKept(prev, us[n], c);
      SameColumnTrans(t, prev, ApplyTradeUpdate(prev, us[n]), c);
    }
  }

  /** A column takes the value of the last keyword that names it. */
  lemma {:induction false} TradeUpdateLastWins(t: Trade, us: seq<TradeUpdate>, k: nat, c: TradeColumn)
    requires k < |us| && Names(us[k], c)
    requires forall j :: k < j < |us| ==> !Names(us[j], c)
    ensures SameColumn(ApplyTradeUpdates(t, us), ApplyTradeUpdate(t, us[k]), c)
    decreases |us|
  {
    var n := |us| - 1;
    var prev := ApplyTradeUpdates(t, us[..n]);
    assert ApplyTradeUpdates(t, us) == ApplyTradeUpdate(prev, us[n]);
    if k < n {
      TradeUpdateLastWins(t, us[..n], k, c);
      UnnamedColumnKept(prev, us[n], c);
      SameColumnTrans(ApplyTradeUpdate(prev, us[n]), prev, ApplyTradeUpdate(t, us[k]), c);
    } else {
      NamedColumnSet(prev, t, us[k], c);
    }
  }

  /** The stop update the trailing step sends changes only the stop. */
  lemma SetSlUpdate(t: Trade, x: real)
    ensures ApplyTradeUpdates(t, [SetSl(x)]) == t.(sl := x)
  {
    assert [SetSl(x)][..0] == [];
  }

  /** Three keywords apply one after the other. */
  lemma ThreeUpdates(t: Trade, u1: TradeUpdate, u2: TradeUpdate, u3: TradeUpdate)
    ensures ApplyTradeUpdates(t, [u1, u2, u3]) == ApplyTradeUpdate(ApplyTradeUpdate(ApplyTradeUpdate(t, u1), u2), u3)
  {
    assert [u1][..0] == [];
    assert ApplyTradeUpdates(t, [u1]) == ApplyTradeUpdate(t, u1);
    assert [u1, u2][..1] == [u1];
    assert ApplyTradeUpdates(t, [u1, u2]) == ApplyTradeUpdate(ApplyTradeUpdates(t, [u1]), u2);
    assert [u1, u2, u3][..2] == [u1, u2];
    assert ApplyTradeUpdates(t, [u1, u2, u3]) == ApplyTradeUpdate(ApplyTradeUpdates(t, [u1, u2]), u3);
  }

  lemma CloseSteps(t: Trade, exitPrice: real, pnl: real)
    ensures ApplyTradeUpdate(ApplyTradeUpdate(ApplyTradeUpdate(t, SetExitPrice(Some(exitPrice))), SetPnlUsdt(Some(pnl))), SetStatus(Closed))
         == t.(exitPrice := Some(exitPrice), pnlUsdt := Some(pnl), status := Closed)
  {}

  /** The close update sets the exit price, the PnL and the CLOSED status, and nothing else. */
  lemma CloseUpdate(t: Trade, exitPrice: real, pnl: real)
    ensures ApplyTradeUpdates(t, [SetExitPrice(Some(exitPrice)), SetPnlUsdt(Some(pnl)), SetStatus(Closed)])
         == t.(exitPrice := Some(exitPrice), pnlUsdt := Some(pnl), status := Closed)
  {
    ThreeUpdates(t, SetExitPrice(Some(exitPrice)), SetPnlUsdt(Some(pnl)), SetStatus(Closed));
    CloseSteps(t, exitPrice, pnl);
  }

  /** The position of the trade with id `id` (`select ... where id == id`). */
  function IndexOfTrade(trades: seq<Trade>, id: int): (r: Option<nat>)
    ensures r.None? <==> forall j :: 0 <= j < |trades| ==> trades[j].id != Some(id)
    ensures r.Some? ==> r.value < |trades| && trades[r.value].id == Some(id)
    decreases |trades|
  {
    if trades == [] then None
    else if trades[|trades| - 1].id == Some(id) then Some(|trades| - 1)
    else IndexOfTrade(trades[..|trades| - 1], id)
  }

  /** In a well-formed store the trade with id `k` is the `k`-th row. */
  lemma IndexOfWellFormed(db: Db, k: int)
    requires WellFormed(db)
    ensures IndexOfTrade(db.trades, k) == if 1 <= k <= |db.trades| then Some(k - 1) else None
  {
    var r := IndexOfTrade(db.trades, k);
    if 1 <= k <= |db.trades| {
      assert db.trades[k - 1].id == Some(k);
    }
  }

  /** `update_trade`: a missing id raises; otherwise the named fields of that row change. */
  function UpdateTradeIn(db: Db, id: int, us: seq<TradeUpdate>): (r: Fallible<(Db, Trade)>)
    ensures r.Err? <==> IndexOfTrade(db.trades, id).None?
    ensures r.Ok? ==> var k := IndexOfTrade(db.trades, id).value;
                      && r.value.1 == ApplyTradeUpdates(db.trades[k], us)
                      && r.value.0 == db.(trades := db.trades[k := r.value.1])
  {
    match IndexOfTrade(db.trades, id)
    case None => Err("Trade not found")
    case Some(k) =>
      var t := ApplyTradeUpdates(db.trades[k], us);
      Ok((db.(trades := db.trades[k := t]), t))
  }

  /** An update keeps the store's shape: same rows, same identities, others untouched. */
  lemma UpdateTradeFrame(db: Db, id: int, us: seq<TradeUpdate>)
    requires UpdateTradeIn(db, id, us).Ok?
    ensures var db' := UpdateTradeIn(db, id, us).value.0;
            && db'.settings == db.settings && db'.events == db.events
            && |db'.trades| == |db.trades|
            && (forall j :: 0 <= j < |db.trades| ==> db'.trades[j].id == db.trades[j].id)
            && ((forall i :: 0 <= i < |us| ==> IsEngineKeyword(us[i])) ==>
                  forall j :: 0 <= j < |db.trades| ==> SameIdentity(db.trades[j], db'.trades[j]))
            && (forall j :: 0 <= j < |db.trades| && db.trades[j].id != Some(id) ==> db'.trades[j] == db.trades[j])
            && (WellFormed(db) ==> WellFormed(db'))
  {
    var k := IndexOfTrade(db.trades, id).value;
    TradeUpdatesFrame(db.trades[k], us);
  }

  predicate IsOpenOn(t: Trade, symbol: string)
  {
    t.symbol == symbol && t.status == Open
  }

  /** The position of the highest-id OPEN trade on `symbol`. */
  function LatestOpenIndex(trades: seq<Trade>, symbol: string): (r: Option<nat>)
    ensures r.None? <==> forall j :: 0 <= j < |trades| ==> !IsOpenOn(trades[j], symbol)
    ensures r.Some? ==> r.value < |trades| && IsOpenOn(trades[r.value], symbol)
    ensures r.Some? ==> forall j :: r.value < j < |trades| ==> !IsOpenOn(trades[j], symbol)
    decreases |trades|
  {
    if trades == [] then None
    else if IsOpenOn(trades[|trades| - 1], symbol) then Some(|trades| - 1)
    else LatestOpenIndex(trades[..|trades| - 1], symbol)
  }

  /** `get_open_trade`: the OPEN trade on `symbol` with the highest id, if there is one. */
  function GetOpenTradeIn(db: Db, symbol: string): (r: Option<Trade>)
    ensures r.None? <==> forall j :: 0 <= j < |db.trades| ==> !IsOpenOn(db.trades[j], symbol)
    ensures r.Some? ==> exists k :: 0 <= k < |db.trades| && db.trades[k] == r.value && IsOpenOn(r.value, symbol)
                          && forall j :: k < j < |db.trades| ==> !IsOpenOn(db.trades[j], symbol)
  {
    match LatestOpenIndex(db.trades, symbol)
    case None => None
    case Some(k) => Some(db.trades[k])
  }

  function Reverse<T>(s: seq<T>): (r: seq<T>)
    ensures |r| == |s|
    ensures forall i :: 0 <= i < |s| ==> r[i] == s[|s| - 1 - i]
    decreases |s|
  {
    if s == [] then [] else Reverse(s[1..]) + [s[0]]
  }

  /** SQL `LIMIT limit` (a negative limit means no limit). */
  function Take<T>(s: seq<T>, limit: int): seq<T>
  {
    if limit < 0 || limit >= |s| then s else s[..limit]
  }

  /** The number of rows `LIMIT limit` keeps out of `n`. */
  function Kept(n: nat, limit: int): (k: nat)
    ensures k <= n
    ensures 0 <= limit <= n ==> k == limit
  {
    if limit < 0 || limit > n then n else limit
  }

  /** The last `limit` rows (every row for a negative limit), oldest first. */
  function LastRows<T>(rows: seq<T>, limit: int): (r: seq<T>)
    ensures |r| == Kept(|rows|, limit)
    ensures r == rows[|rows| - |r|..]
  {
    rows[|rows| - Kept(|rows|, limit)..]
  }

  /**
   * `list(reversed(rows ordered by id desc, limited))`, with rows held in id
   * order, yields exactly the last rows.
   */
  lemma LastRowsIsNewestReversed<T>(rows: seq<T>, limit: int)
    ensures Reverse(Take(Reverse(rows), limit)) == LastRows(rows, limit)
  {
    var q := Reverse(Take(Reverse(rows), limit));
    var n := Kept(|rows|, limit);
    assert |Take(Reverse(rows), limit)| == n;
    forall i | 0 <= i < n
      ensures q[i] == rows[|rows| - n + i]
    {
      assert q[i] == Reverse(rows)[n - 1 - i];
    }
  }

  /** `list_events`. */
  function ListEventsIn(db: Db, limit: int): (r: seq<Event>)
    requires WellFormed(db)
    ensures |r| == Kept(|db.events|, limit)
    ensures r == db.events[|db.events| - |r|..]
    ensures forall i :: 0 <= i < |r| ==> r[i].id == |db.events| - |r| + i + 1
  {
    var r := LastRows(db.events, limit);
    var n := |db.events| - |r|;
    forall i | 0 <= i < |r|
      ensures r[i].id == n + i + 1
    {
      assert r[i] == db.events[n + i];
    }
    r
  }

  /** `list_trades`. */
  function ListTradesIn(db: Db, limit: int): (r: seq<Trade>)
    requires WellFormed(db)
    ensures |r| == Kept(|db.trades|, limit)
    ensures r == db.trades[|db.trades| - |r|..]
    ensures forall i :: 0 <= i < |r| ==> r[i].id == Some(|db.trades| - |r| + i + 1)
  {
    var r := LastRows(db.trades, limit);
    var n := |db.trades| - |r|;
    forall i | 0 <= i < |r|
      ensures r[i].id == Some(n + i + 1)
    {
      assert r[i] == db.trades[n + i];
    }
    r
  }

  /** The repository over one in-memory database. */
  class Store {
    var settingsRow: Option<Settings>
    var trades: seq<Trade>
    var events: seq<Event>

    function State(): Db
      reads this
    {
      Db(settingsRow, trades, events)
    }

    ghost predicate Valid()
      reads this
    {
      WellFormed(State())
    }

    constructor ()
      ensures Valid() && State() == Db(None, [], [])
    {
      settingsRow, trades, events := None, [], [];
    }

    method GetOrCreateSettings(now: Instant) returns (s: Settings)
      modifies this
      ensures old(Valid()) ==> Valid()
      ensures (State(), s) == GetOrCreateSettingsIn(old(State()), now)
    {
      if settingsRow.None? {
        settingsRow := Some(DefaultSettings(now));
      }
      s := settingsRow.value;
    }

    method UpdateSettings(payload: seq<(string, Value)>, now: Instant) returns (s: Settings)
      modifies this
      ensures old(Valid()) ==> Valid()
      ensures (State(), s) == UpdateSettingsIn(old(State()), payload, now)
    {
      s := GetOrCreateSettings(now);
      ghost var base := s;
      for i := 0 to |payload|
        invariant s == ApplyPayload(base, payload[..i])
      {
        var (k, v) := payload[i];
        s := SetAttr(s, k, v);
        assert payload[..i + 1][..i] == payload[..i];
      }
      assert payload[..|payload|] == payload;
      s := s.(updatedAt := now);
      settingsRow := Some(s);
    }

    method AddEvent(level: Level, kind: EventType, now: Instant) returns (e: Event)
      modifies this
      ensures old(Valid()) ==> Valid()
      ensures State() == AddEventIn(old(State()), level, kind, now)
      ensures e == events[|events| - 1]
    {
      e := Event(|events| + 1, now, level, kind);
      events := events + [e];
    }

    method AddTrade(t: Trade) returns (saved: Trade)
      modifies this
      ensures old(Valid()) ==> Valid()
      ensures (State(), saved) == AddTradeIn(old(State()), t)
    {
      saved := t.(id := Some(|trades| + 1));
      trades := trades + [saved];
    }

    method UpdateTrade(id: int, fields: seq<TradeUpdate>) returns (r: Fallible<Trade>)
      modifies this
      ensures old(Valid()) ==> Valid()
      ensures UpdateTradeIn(old(State()), id, fields).Err? ==>
                r == Err(UpdateTradeIn(old(State()), id, fields).msg) && State() == old(State())
      ensures UpdateTradeIn(old(State()), id, fields).Ok? ==>
                r == Ok(UpdateTradeIn(old(State()), id, fields).value.1)
                && State() == UpdateTradeIn(old(State()), id, fields).value.0
    {
      var found := IndexOfTrade(trades, id);
      if found.None? {
        return Err("Trade not found");
      }
      var k := found.value;
      var t := trades[k];
      for i := 0 to |fields|
        invariant t == ApplyTradeUpdates(trades[k], fields[..i])
      {
        t := ApplyTradeUpdate(t, fields[i]);
        assert fields[..i + 1][..i] == fields[..i];
      }
      assert fields[..|fields|] == fields;
      trades := trades[k := t];
      r := Ok(t);
    }

    /** `get_open_trade`: the highest-id OPEN trade on `symbol`. */
    function GetOpenTrade(symbol: string): (r: Option<Trade>)
      reads this
      requires Valid()
      ensures r.None? <==> forall j :: 0 <= j < |trades| ==> !IsOpenOn(trades[j], symbol)
      ensures r.Some? ==> r.value in trades && IsOpenOn(r.value, symbol)
      ensures r.Some? ==> forall j :: 0 <= j < |trades| && IsOpenOn(trades[j], symbol)
                            ==> trades[j].id.value <= r.value.id.value
    {
      GetOpenTradeIn(State(), symbol)
    }

    function ListEvents(limit: int): seq<Event>
      reads this
      requires Valid()
    {
      ListEventsIn(State(), limit)
    }

    function ListTrades(limit: int): seq<Trade>
      reads this
      requires Valid()
    {
      ListTradesIn(State(), limit)
    }
  }
}
