/**
 * The engine's pure arithmetic: spread filter, position sizer, cooldown and
 * daily-loss gates, SL/TP bracket, exit test, PnL, slippage, fill fallback and
 * one trailing-stop step.
 */
module Risk {
  import opened Base
  import opened Models

  /** `_spread_pct`: 999 for a one-sided or empty book, else the spread over the mid, in percent. */
  function SpreadPct(bid: real, ask: real): (sp: real)
    ensures bid <= 0.0 || ask <= 0.0 ==> sp == 999.0
    ensures bid > 0.0 && ask > 0.0 ==> sp * (bid + ask) == (ask - bid) * 200.0
  {
    if bid <= 0.0 || ask <= 0.0 then 999.0
    else (ask - bid) / ((bid + ask) / 2.0) * 100.0
  }

  /** On an uncrossed two-sided book the spread is in [0, 200) and zero only when bid = ask. */
  lemma SpreadOfQuotedBook(bid: real, ask: real)
    requires 0.0 < bid <= ask
    ensures 0.0 <= SpreadPct(bid, ask) < 200.0
    ensures SpreadPct(bid, ask) == 0.0 <==> bid == ask
  {
    var w := bid + ask;
    var ratio := (ask - bid) / w;
    assert SpreadPct(bid, ask) == ratio * 200.0;
    assert ratio * w == ask - bid;
    assert ratio < 1.0 by {
      if ratio >= 1.0 {
        MulMono(1.0, ratio, w);
      }
    }
  }

  /** The size the risk budget allows: `balance*risk% / (price*sl%)`. */
  function QtyByRisk(price: real, balance: real, riskPct: real, slPct: real): real
    requires price * (slPct / 100.0) != 0.0
  {
    (balance * (riskPct / 100.0)) / (price * (slPct / 100.0))
  }

  /** The size the margin cap allows: `balance*max_margin% * leverage / price`, 0 for a non-positive price. */
  function QtyByMargin(price: real, balance: real, leverage: int, maxMarginPct: real): real
  {
    if price > 0.0 then (balance * (maxMarginPct / 100.0) * leverage as real) / price else 0.0
  }

  /** `_calc_qty`: the smaller of the two sizes, rounded to 6 decimals, never negative. */
  function CalcQty(price: real, balance: real, riskPct: real, slPct: real,
                   leverage: int, maxMarginPct: real): (q: real)
    ensures q >= 0.0
    ensures price * (slPct / 100.0) <= 0.0 ==> q == 0.0
    ensures price <= 0.0 ==> q == 0.0
  {
    var slMove := price * (slPct / 100.0);
    if slMove <= 0.0 then 0.0
    else
      var m := Min(QtyByRisk(price, balance, riskPct, slPct), QtyByMargin(price, balance, leverage, maxMarginPct));
      assert price <= 0.0 ==> m <= 0.0;
      Max(0.0, Round6(m))
  }

  /** With a positive stop distance the size is the tighter limit up to rounding, or 0 if that is negative. */
  lemma CalcQtyTighterLimit(price: real, balance: real, riskPct: real, slPct: real,
                            leverage: int, maxMarginPct: real)
    requires price * (slPct / 100.0) > 0.0
    ensures var m := Min(QtyByRisk(price, balance, riskPct, slPct), QtyByMargin(price, balance, leverage, maxMarginPct));
            var q := CalcQty(price, balance, riskPct, slPct, leverage, maxMarginPct);
            && (m >= 0.0 ==> -HalfStep <= q - m <= HalfStep)
            && (m <= 0.0 ==> q == 0.0)
            && q <= Max(0.0, m + HalfStep)
  {
  }

  /** Balance 10000, risk 1%, stop 1.5%, leverage 5, margin 10%, price 50000: the margin cap gives 0.1. */
  lemma CalcQtyExample()
    ensures CalcQty(50000.0, 10000.0, 1.0, 1.5, 5, 10.0) == 0.1
  {
    assert QtyByRisk(50000.0, 10000.0, 1.0, 1.5) == 100.0 / 750.0;
    assert QtyByMargin(50000.0, 10000.0, 5, 10.0) == 0.1;
    Round6OnGrid(100000);
    assert 100000 as real / Scale == 0.1;
  }

  /** `_cooldown_ok`: no previous trade, or at least `minutes` since it. */
  predicate CooldownOk(lastTradeTime: Option<Instant>, now: Instant, minutes: int)
    ensures lastTradeTime.None? ==> CooldownOk(lastTradeTime, now, minutes)
    ensures lastTradeTime.Some? && minutes > 0 && now <= lastTradeTime.value ==> !CooldownOk(lastTradeTime, now, minutes)
  {
    lastTradeTime.None? || now - lastTradeTime.value >= minutes * MicrosPerMinute
  }

  /** Exactly `minutes` after the last trade the cooldown has passed; one microsecond earlier it has not. */
  lemma CooldownBoundary(last: Instant, minutes: int)
    ensures CooldownOk(Some(last), last + minutes * MicrosPerMinute, minutes)
    ensures !CooldownOk(Some(last), last + minutes * MicrosPerMinute - 1, minutes)
  {
  }

  /** Once passed, the cooldown stays passed as time goes on. */
  lemma CooldownMonotone(last: Option<Instant>, now: Instant, later: Instant, minutes: int)
    requires now <= later && CooldownOk(last, now, minutes)
    ensures CooldownOk(last, later, minutes)
  {
  }

  /**
   * The daily-loss gate: only with a positive balance, and when the day's PnL is at or
   * below `-balance*max%`; so never on a non-positive balance, nor without a loss.
   */
  predicate DailyLossHit(balance: real, dailyPnl: real, maxDailyLossPct: real)
    ensures DailyLossHit(balance, dailyPnl, maxDailyLossPct) ==> balance > 0.0
    ensures maxDailyLossPct > 0.0 && dailyPnl >= 0.0 ==> !DailyLossHit(balance, dailyPnl, maxDailyLossPct)
  {
    assert balance > 0.0 && maxDailyLossPct > 0.0 ==> balance * (maxDailyLossPct / 100.0) > 0.0 by {
      if balance > 0.0 && maxDailyLossPct > 0.0 {
        MulPos(balance, maxDailyLossPct / 100.0);
      }
    }
    balance > 0.0 && dailyPnl <= -(balance * (maxDailyLossPct / 100.0))
  }

  /** A product of positive reals is positive. */
  lemma MulPos(a: real, b: real)
    requires a > 0.0 && b > 0.0
    ensures a * b > 0.0
  {
  }

  predicate HitTp(side: Side, price: real, tp: real)
  {
    if side == Buy then price >= tp else price <= tp
  }

  predicate HitSl(side: Side, price: real, sl: real)
  {
    if side == Buy then price <= sl else price >= sl
  }

  /** The exit test of `_manage_open_trade`: none unless a level is hit, and TP whenever TP is hit. */
  function ExitReasonFor(side: Side, price: real, tp: real, sl: real): (r: Option<ExitReason>)
    ensures r.None? <==> !HitTp(side, price, tp) && !HitSl(side, price, sl)
    ensures r == Some(TP) <==> HitTp(side, price, tp)
    ensures r == Some(SL) <==> !HitTp(side, price, tp) && HitSl(side, price, sl)
  {
    if HitTp(side, price, tp) then Some(TP)
    else if HitSl(side, price, sl) then Some(SL)
    else None
  }

  /**
   * The realised PnL: `(exit - entry) * qty`, negated for a sell. For a positive size
   * it is 0 exactly at the entry price, and a buy gains exactly when the price rose,
   * a sell exactly when it fell.
   */
  function Pnl(side: Side, exitPrice: real, entry: real, qty: real): (r: real)
    ensures qty > 0.0 ==> (r == 0.0 <==> exitPrice == entry)
    ensures qty > 0.0 && side == Buy ==> (r > 0.0 <==> exitPrice > entry)
    ensures qty > 0.0 && side == Sell ==> (r > 0.0 <==> exitPrice < entry)
  {
    MulSign(exitPrice - entry, qty);
    if side == Sell then -((exitPrice - entry) * qty) else (exitPrice - entry) * qty
  }

  /** `Pnl` written out: the gross move times the quantity, negated for a short. */
  lemma PnlIs(side: Side, exitPrice: real, entry: real, qty: real, gross: real)
    requires gross == (exitPrice - entry) * qty
    ensures Pnl(side, exitPrice, entry, qty) == if side == Sell then -gross else gross
  {}

  /** A positive factor keeps the sign of the other one. */
  lemma MulSign(d: real, q: real)
    ensures q > 0.0 && d > 0.0 ==> d * q > 0.0
    ensures q > 0.0 && d < 0.0 ==> d * q < 0.0
  {
    if q > 0.0 && d > 0.0 {
      MulPos(d, q);
    } else if q > 0.0 && d < 0.0 {
      MulPos(-d, q);
    }
  }

  /**
   * SL and TP around a fill: buy `f(1-sl%)`, `f(1+tp%)`; sell mirrored. With positive
   * percentages the stop is on the losing side of the fill and the target on the winning side.
   */
  function Bracket(side: Side, fill: real, slPct: real, tpPct: real): (r: (real, real))
    ensures fill > 0.0 && slPct > 0.0 && tpPct > 0.0 && side == Buy ==> r.0 < fill < r.1
    ensures fill > 0.0 && slPct > 0.0 && tpPct > 0.0 && side == Sell ==> r.1 < fill < r.0
  {
    assert fill > 0.0 && slPct > 0.0 ==> fill * (slPct / 100.0) > 0.0 by {
      if fill > 0.0 && slPct > 0.0 { MulPos(fill, slPct / 100.0); }
    }
    assert fill > 0.0 && tpPct > 0.0 ==> fill * (tpPct / 100.0) > 0.0 by {
      if fill > 0.0 && tpPct > 0.0 { MulPos(fill, tpPct / 100.0); }
    }
    if side == Buy then (fill * (1.0 - slPct / 100.0), fill * (1.0 + tpPct / 100.0))
    else (fill * (1.0 + slPct / 100.0), fill * (1.0 - tpPct / 100.0))
  }

  /** On a bracketed trade a TP exit is a gain, an SL exit a loss, and the two never hit together. */
  lemma BracketedExit(side: Side, fill: real, slPct: real, tpPct: real, qty: real, price: real)
    requires fill > 0.0 && slPct > 0.0 && tpPct > 0.0 && qty > 0.0
    ensures var (sl, tp) := Bracket(side, fill, slPct, tpPct);
            && (HitTp(side, price, tp) ==> Pnl(side, price, fill, qty) > 0.0)
            && (HitSl(side, price, sl) ==> Pnl(side, price, fill, qty) < 0.0)
            && !(HitTp(side, price, tp) && HitSl(side, price, sl))
  {
  }

  /** What `if not fill_avg: fill_avg = entry_price_ref` leaves: the reference for a missing or zero average. */
  function FillPrice(average: Option<real>, reference: real): (f: real)
    ensures average.None? || average.value == 0.0 ==> f == reference
    ensures average.Some? && average.value != 0.0 ==> f == average.value
    ensures f == 0.0 ==> reference == 0.0
  {
    if average.None? || average.value == 0.0 then reference else average.value
  }

  /** The slippage of the fill against the reference, in percent (0 for a non-positive reference). */
  function SlippagePct(fill: real, reference: real): (s: real)
    ensures s >= 0.0
    ensures fill == reference ==> s == 0.0
  {
    if reference > 0.0 then Abs(fill - reference) / reference * 100.0 else 0.0
  }

  /** The profit of the position at `price`, in percent of the entry. */
  function ProfitPct(side: Side, entry: real, price: real): real
    requires entry != 0.0
  {
    if side == Buy then (price - entry) / entry * 100.0 else (entry - price) / entry * 100.0
  }

  /** The outcome of `_apply_trailing`: the new best price and the stop to write, if any. */
  datatype Trail = Trail(best: Option<real>, newSl: Option<real>)

  /** The best price after seeing `price`: the maximum so far for a buy, the minimum for a sell. */
  function BestAfter(side: Side, best: Option<real>, price: real): (b: real)
    ensures side == Buy ==> b >= price && (best.Some? ==> b >= best.value)
    ensures side == Sell ==> b <= price && (best.Some? ==> b <= best.value)
    ensures b == price || best == Some(b)
  {
    if side == Buy then (if best.None? || price > best.value then price else best.value)
    else (if best.None? || price < best.value then price else best.value)
  }

  /** The stop `trailingPct` percent behind the best price. */
  function TrailCandidate(side: Side, best: real, trailingPct: real): real
  {
    if side == Buy then best * (1.0 - trailingPct / 100.0) else best * (1.0 + trailingPct / 100.0)
  }

  /** `candidate` is a tighter stop than `sl`: higher for a buy, lower for a sell. */
  predicate Tighter(side: Side, candidate: real, sl: real)
  {
    if side == Buy then candidate > sl else candidate < sl
  }

  /** `_apply_trailing` for a trade with `entry` and current stop `sl`; a zero entry raises. */
  function TrailStep(side: Side, entry: real, sl: real, best: Option<real>, price: real,
                     activationPct: real, trailingPct: real): (r: Fallible<Trail>)
    ensures r.Err? <==> entry == 0.0
    ensures r.Ok? && r.value.newSl.Some? ==> r.value.best.Some?
  {
    if entry == 0.0 then Err("float division by zero")
    else if ProfitPct(side, entry, price) < activationPct then Ok(Trail(best, None))
    else
      var b := BestAfter(side, best, price);
      var candidate := TrailCandidate(side, b, trailingPct);
      Ok(Trail(Some(b), if Tighter(side, candidate, sl) then Some(candidate) else None))
  }

  /** Below the activation profit nothing changes. */
  lemma TrailUnarmed(side: Side, entry: real, sl: real, best: Option<real>, price: real,
                     activationPct: real, trailingPct: real)
    requires entry != 0.0 && ProfitPct(side, entry, price) < activationPct
    ensures TrailStep(side, entry, sl, best, price, activationPct, trailingPct) == Ok(Trail(best, None))
  {
  }

  /** Once armed, the best price is the extreme of the previous best and the price: up for a buy, down for a sell. */
  lemma TrailBestMonotone(side: Side, entry: real, sl: real, best: Option<real>, price: real,
                          activationPct: real, trailingPct: real)
    requires entry != 0.0 && ProfitPct(side, entry, price) >= activationPct
    ensures var r := TrailStep(side, entry, sl, best, price, activationPct, trailingPct);
            && r.Ok? && r.value.best.Some?
            && (side == Buy ==> r.value.best.value >= price && (best.Some? ==> r.value.best.value >= best.value))
            && (side == Sell ==> r.value.best.value <= price && (best.Some? ==> r.value.best.value <= best.value))
            && (r.value.best.value == price || best == r.value.best)
  {
  }

  /** A stop is written only when strictly tighter than the current one, so the stop never loosens. */
  lemma TrailNeverLoosens(side: Side, entry: real, sl: real, best: Option<real>, price: real,
                          activationPct: real, trailingPct: real)
    requires TrailStep(side, entry, sl, best, price, activationPct, trailingPct).Ok?
    ensures var t := TrailStep(side, entry, sl, best, price, activationPct, trailingPct).value;
            && (t.newSl.Some? && side == Buy ==> t.newSl.value > sl)
            && (t.newSl.Some? && side == Sell ==> t.newSl.value < sl)
            && (t.newSl.Some? && side == Buy ==> t.newSl.value == t.best.value * (1.0 - trailingPct / 100.0))
            && (t.newSl.Some? && side == Sell ==> t.newSl.value == t.best.value * (1.0 + trailingPct / 100.0))
  {
  }

  /**
   * The armed step exactly: the best price becomes the price or the more extreme of it
   * and the previous best, and the stop `trailingPct` behind it is written exactly when
   * it is strictly tighter than the current stop.
   */
  lemma TrailArmed(side: Side, entry: real, sl: real, best: Option<real>, price: real,
                   activationPct: real, trailingPct: real)
    requires entry != 0.0 && ProfitPct(side, entry, price) >= activationPct
    ensures var b := if best.None? then price else if side == Buy then Max(best.value, price) else Min(best.value, price);
            var c := if side == Buy then b * (1.0 - trailingPct / 100.0) else b * (1.0 + trailingPct / 100.0);
            var write := if side == Buy then c > sl else c < sl;
            TrailStep(side, entry, sl, best, price, activationPct, trailingPct)
              == Ok(Trail(Some(b), if write then Some(c) else None))
  {
    var r := TrailStep(side, entry, sl, best, price, activationPct, trailingPct);
    var b := if best.None? then price else if side == Buy then Max(best.value, price) else Min(best.value, price);
    assert b == BestAfter(side, best, price);
    var c := if side == Buy then b * (1.0 - trailingPct / 100.0) else b * (1.0 + trailingPct / 100.0);
    assert c == TrailCandidate(side, b, trailingPct);
    var write := if side == Buy then c > sl else c < sl;
    assert write == Tighter(side, c, sl);
    assert r.value.newSl == (if write then Some(c) else None);
  }

  /** Entry 100, activation 0.8%, trail 0.6%, price 100.9: the stop moves from 98.5 to 100.2946. */
  lemma TrailExample()
    ensures TrailStep(Buy, 100.0, 98.5, None, 100.9, 0.8, 0.6) == Ok(Trail(Some(100.9), Some(100.2946)))
  {
    assert ProfitPct(Buy, 100.0, 100.9) == 0.9;
    assert 100.9 * (1.0 - 0.6 / 100.0) == 100.2946;
  }
}
