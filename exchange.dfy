/**
 * The normalisation the exchange adapter applies to what the exchange returns:
 * ticker and balance fallbacks, the "already set" leverage case, fill parsing,
 * the open-then-closed order scan, fill polling and request parameters.
 * The exchange's own responses are inputs.
 */
module Exchange {
  import opened Base

  /** The fields of `fetch_ticker` the adapter reads. */
  datatype RawTicker = RawTicker(last: Option<real>, bid: Option<real>, ask: Option<real>, timestamp: Option<int>)

  datatype TickerView = TickerView(symbol: string, last: real, bid: real, ask: real, timestamp: Option<int>)

  /** `float(x or 0)`. */
  function OrZero(x: Option<real>): real
  {
    if x.Some? then x.value else 0.0
  }

  /** `ticker`: a missing (or zero) last, bid or ask reads as 0. */
  function Ticker(symbol: string, t: RawTicker): (v: TickerView)
    ensures v.symbol == symbol && v.timestamp == t.timestamp
    ensures t.last.None? ==> v.last == 0.0
    ensures t.last.Some? ==> v.last == t.last.value
    ensures t.bid.None? ==> v.bid == 0.0
    ensures t.bid.Some? ==> v.bid == t.bid.value
    ensures t.ask.None? ==> v.ask == 0.0
    ensures t.ask.Some? ==> v.ask == t.ask.value
  {
    TickerView(symbol, OrZero(t.last), OrZero(t.bid), OrZero(t.ask), t.timestamp)
  }

  /** The `USDT` entries of the `total` and `free` parts of `fetch_balance`. */
  datatype RawBalance = RawBalance(totalUsdt: Option<real>, freeUsdt: Option<real>)

  /** `balance_usdt`: total USDT, else free USDT, else 0. */
  function BalanceUsdt(b: RawBalance): (r: real)
    ensures b.totalUsdt.Some? ==> r == b.totalUsdt.value
    ensures b.totalUsdt.None? && b.freeUsdt.Some? ==> r == b.freeUsdt.value
    ensures b.totalUsdt.None? && b.freeUsdt.None? ==> r == 0.0
  {
    if b.totalUsdt.Some? then b.totalUsdt.value else OrZero(b.freeUsdt)
  }

  /** Python's `t in s` on strings. */
  function Contains(s: string, t: string): bool
    decreases |s|
  {
    if |t| > |s| then false
    else if s[..|t|] == t then true
    else Contains(s[1..], t)
  }

  /** `t` occurs in `s` starting at position `i`. */
  predicate OccursAt(s: string, t: string, i: int)
  {
    0 <= i <= |s| - |t| && s[i..i + |t|] == t
  }

  /** `Contains` holds exactly when `t` occurs at some position of `s`. */
  lemma {:induction false} ContainsIff(s: string, t: string)
    ensures Contains(s, t) <==> exists i :: OccursAt(s, t, i)
    decreases |s|
  {
    if |t| > |s| {
    } else if s[..|t|] == t {
      assert OccursAt(s, t, 0);
    } else {
      ContainsIff(s[1..], t);
      if Contains(s[1..], t) {
        var i :| OccursAt(s[1..], t, i);
        assert s[i + 1..i + 1 + |t|] == s[1..][i..i + |t|];
        assert OccursAt(s, t, i + 1);
      } else {
        forall i | OccursAt(s, t, i)
          ensures false
        {
          if i > 0 {
            assert s[i..i + |t|] == t;
            assert s[1..][i - 1..i - 1 + |t|] == s[i..i + |t|];
            assert OccursAt(s[1..], t, i - 1);
          }
        }
      }
    }
  }

  datatype LeverageAck = Applied | AlreadySet

  /** The error texts the exchange uses when the leverage is already the requested one. */
  predicate IsAlreadySetError(msg: string)
  {
    Contains(msg, "110043") || Contains(msg, "leverage not modified")
  }

  /** `set_leverage`: success, the "already set" error as success, any other error re-raised. */
  function SetLeverage(call: CallResult): (r: Fallible<LeverageAck>)
    ensures call.Returned? ==> r == Ok(Applied)
    ensures call.Raised? ==> (r.Ok? <==> IsAlreadySetError(call.msg))
    ensures call.Raised? && r.Ok? ==> r.value == AlreadySet
    ensures r.Err? ==> call == Raised(r.msg)
  {
    match call
    case Returned => Ok(Applied)
    case Raised(msg) => if IsAlreadySetError(msg) then Ok(AlreadySet) else Err(msg)
  }

  datatype RawFee = RawFee(cost: Option<real>)

  /** The fields of an exchange order dictionary the adapter reads. */
  datatype RawOrder = RawOrder(
    id: Option<string>,
    status: Option<string>,
    average: Option<real>,
    filled: Option<real>,
    fee: Option<RawFee>)

  /** `{}`: what `order or {}` gives for a missing order. */
  const EmptyOrder: RawOrder := RawOrder(None, None, None, None, None)

  datatype Fill = Fill(
    status: Option<string>,
    id: Option<string>,
    average: Option<real>,
    filled: Option<real>,
    feeCost: Option<real>)

  /** `parse_fill`: status and id copied, average, filled and fee cost `None` when absent. */
  function ParseFill(o: RawOrder): (f: Fill)
    ensures f.status == o.status && f.id == o.id
    ensures f.average == o.average && f.filled == o.filled
    ensures f.feeCost.None? <==> (o.fee.None? || o.fee.value.cost.None?)
    ensures f.feeCost.Some? ==> f.feeCost == o.fee.value.cost
  {
    var fee := if o.fee.Some? then o.fee.value else RawFee(None);
    Fill(o.status, o.id, o.average, o.filled, fee.cost)
  }

  function LowerChar(c: char): char
  {
    if 'A' <= c <= 'Z' then (c as int + 32) as char else c
  }

  /** `str.lower` on ASCII letters. */
  function Lower(s: string): (r: string)
    ensures |r| == |s|
    ensures forall i :: 0 <= i < |s| ==> r[i] == LowerChar(s[i])
  {
    seq(|s|, i requires 0 <= i < |s| => LowerChar(s[i]))
  }

  /** `(status or "").lower() in ("closed", "filled")`. */
  predicate IsFilledStatus(status: Option<string>)
    ensures status.None? ==> !IsFilledStatus(status)
    ensures status == Some("closed") || status == Some("filled") || status == Some("Filled") ==> IsFilledStatus(status)
  {
    assert Lower("closed") == "closed";
    assert Lower("filled") == "filled";
    assert Lower("Filled") == "filled";
    var s := Lower(if status.Some? then status.value else "");
    s == "closed" || s == "filled"
  }

  /** The first order of `orders` whose id equals `id`, if any. */
  function FirstWithId(orders: seq<RawOrder>, id: Option<string>): (r: Option<RawOrder>)
    ensures r.None? <==> forall i :: 0 <= i < |orders| ==> orders[i].id != id
    ensures r.Some? ==> exists i :: 0 <= i < |orders| && orders[i] == r.value && orders[i].id == id
                                    && forall j :: 0 <= j < i ==> orders[j].id != id
    decreases |orders|
  {
    if orders == [] then None
    else if orders[0].id == id then Some(orders[0])
    else
      var rest := FirstWithId(orders[1..], id);
      assert forall i :: 1 <= i < |orders| ==> orders[i] == orders[1..][i - 1];
      rest
  }

  /** One status lookup: the open orders (or the fetch error) and the closed orders. */
  datatype PollInput = PollInput(openOrders: Fallible<seq<RawOrder>>, closedOrders: Fallible<seq<RawOrder>>)

  /** The order `get_order_status_safe` returns for one lookup. */
  function StatusSafe(p: PollInput, id: Option<string>): (r: Option<RawOrder>)
    ensures r.Some? ==> r.value.id == id
    ensures r.Some? ==> (p.openOrders.Ok? && r.value in p.openOrders.value) || (p.closedOrders.Ok? && r.value in p.closedOrders.value)
    ensures r.None? <==> (p.openOrders.Ok? ==> forall i :: 0 <= i < |p.openOrders.value| ==> p.openOrders.value[i].id != id)
                         && (p.closedOrders.Ok? ==> forall i :: 0 <= i < |p.closedOrders.value| ==> p.closedOrders.value[i].id != id)
    ensures p.openOrders.Ok? && FirstWithId(p.openOrders.value, id).Some? ==> r == FirstWithId(p.openOrders.value, id)
    ensures (p.openOrders.Err? || FirstWithId(p.openOrders.value, id).None?) && p.closedOrders.Ok? ==>
              r == FirstWithId(p.closedOrders.value, id)
  {
    var fromOpen := if p.openOrders.Ok? then FirstWithId(p.openOrders.value, id) else None;
    if fromOpen.Some? then fromOpen
    else if p.closedOrders.Ok? then FirstWithId(p.closedOrders.value, id)
    else None
  }

  /** `get_order_status_safe`: scan the open orders, then the closed ones; fetch errors are swallowed. */
  method GetOrderStatusSafe(p: PollInput, id: Option<string>) returns (r: Option<RawOrder>)
    ensures r == StatusSafe(p, id)
  {
    if p.openOrders.Ok? {
      var opens := p.openOrders.value;
      for i := 0 to |opens|
        invariant forall j :: 0 <= j < i ==> opens[j].id != id
      {
        if opens[i].id == id {
          return Some(opens[i]);
        }
      }
    }
    if p.closedOrders.Ok? {
      var closed := p.closedOrders.value;
      for i := 0 to |closed|
        invariant forall j :: 0 <= j < i ==> closed[j].id != id
      {
        if closed[i].id == id {
          return Some(closed[i]);
        }
      }
    }
    return None;
  }

  /** Polling from some point on, `last` being the last order seen so far. */
  function WaitFrom(polls: seq<PollInput>, id: Option<string>, last: Option<RawOrder>): (r: Option<RawOrder>)
    ensures r == last || (r.Some? && r.value.id == id)
    decreases |polls|
  {
    if polls == [] then last
    else
      var o := StatusSafe(polls[0], id);
      if o.Some? && IsFilledStatus(o.value.status) then o
      else WaitFrom(polls[1..], id, if o.Some? then o else last)
  }

  /** The order `wait_fill` returns, `polls` being the lookups made before the timeout. */
  function WaitFillResult(polls: seq<PollInput>, id: Option<string>): (r: Option<RawOrder>)
    ensures r.Some? ==> r.value.id == id
    ensures polls == [] ==> r.None?
  {
    WaitFrom(polls, id, None)
  }

  /** `wait_fill`: poll until a lookup yields a closed or filled order, else give the last one seen. */
  method WaitFill(polls: seq<PollInput>, id: Option<string>) returns (r: Option<RawOrder>)
    ensures r == WaitFillResult(polls, id)
  {
    var last: Option<RawOrder> := None;
    var i := 0;
    while i < |polls|
      invariant 0 <= i <= |polls|
      invariant WaitFrom(polls, id, None) == WaitFrom(polls[i..], id, last)
    {
      var o := GetOrderStatusSafe(polls[i], id);
      if o.Some? {
        last := o;
        if IsFilledStatus(o.value.status) {
          return o;
        }
      }
      assert polls[i..][1..] == polls[i + 1..];
      i := i + 1;
    }
    return last;
  }

  /** Lookup `i` yielded an order whose status counts as filled. */
  predicate FilledAt(polls: seq<PollInput>, id: Option<string>, i: nat)
    requires i < |polls|
  {
    var o := StatusSafe(polls[i], id);
    o.Some? && IsFilledStatus(o.value.status)
  }

  /** When some lookup shows a fill, `wait_fill` returns the order of the first such lookup. */
  lemma {:induction false} WaitFillFirstFilled(polls: seq<PollInput>, id: Option<string>, last: Option<RawOrder>, k: nat)
    requires k < |polls| && FilledAt(polls, id, k)
    requires forall i :: 0 <= i < k ==> !FilledAt(polls, id, i)
    ensures WaitFrom(polls, id, last) == StatusSafe(polls[k], id)
    decreases k
  {
    if k > 0 {
      assert !FilledAt(polls, id, 0);
      var o := StatusSafe(polls[0], id);
      forall i | 0 <= i < k - 1
        ensures !FilledAt(polls[1..], id, i)
      {
        assert polls[1..][i] == polls[i + 1];
        assert !FilledAt(polls, id, i + 1);
      }
      assert polls[1..][k - 1] == polls[k];
      WaitFillFirstFilled(polls[1..], id, if o.Some? then o else last, k - 1);
    }
  }

  /**
   * When no lookup shows a fill, `wait_fill` returns the order of the last lookup that
   * found one, or the order seen before when none did.
   */
  lemma {:induction false} WaitFillTimeout(polls: seq<PollInput>, id: Option<string>, last: Option<RawOrder>)
    requires forall i :: 0 <= i < |polls| ==> !FilledAt(polls, id, i)
    ensures (forall i :: 0 <= i < |polls| ==> StatusSafe(polls[i], id).None?) ==> WaitFrom(polls, id, last) == last
    ensures (exists i :: 0 <= i < |polls| && StatusSafe(polls[i], id).Some?) ==>
              exists i :: 0 <= i < |polls| && WaitFrom(polls, id, last) == StatusSafe(polls[i], id)
                          && StatusSafe(polls[i], id).Some?
                          && forall j :: i < j < |polls| ==> StatusSafe(polls[j], id).None?
    decreases |polls|
  {
    if polls != [] {
      var o := StatusSafe(polls[0], id);
      var tail := polls[1..];
      assert !FilledAt(polls, id, 0);
      forall i | 0 <= i < |tail|
        ensures !FilledAt(tail, id, i)
      {
        assert tail[i] == polls[i + 1];
        assert !FilledAt(polls, id, i + 1);
      }
      var next := if o.Some? then o else last;
      WaitFillTimeout(tail, id, next);
      assert WaitFrom(polls, id, last) == WaitFrom(tail, id, next);
      if exists i :: 0 <= i < |tail| && StatusSafe(tail[i], id).Some? {
        var i :| 0 <= i < |tail| && WaitFrom(tail, id, next) == StatusSafe(tail[i], id)
                 && StatusSafe(tail[i], id).Some?
                 && forall j :: i < j < |tail| ==> StatusSafe(tail[j], id).None?;
        assert tail[i] == polls[i + 1];
        forall j | i + 1 < j < |polls|
          ensures StatusSafe(polls[j], id).None?
        {
          assert polls[j] == tail[j - 1];
        }
      } else {
        forall j | 0 < j < |polls|
          ensures StatusSafe(polls[j], id).None?
        {
          assert polls[j] == tail[j - 1];
        }
        if o.Some? {
          assert WaitFrom(polls, id, last) == StatusSafe(polls[0], id);
        }
      }
    }
  }

  /** A request parameter value; `Number(x)` stands for `str(x)`. */
  datatype ParamValue = Text(s: string) | Number(x: real) | Flag(b: bool)

  /** The parameters `set_trading_stop` sends. */
  method TradingStopParams(marketId: string, stopLoss: Option<real>, takeProfit: Option<real>)
    returns (params: map<string, ParamValue>)
    ensures params.Keys == {"category", "symbol"}
                           + (if stopLoss.Some? then {"stopLoss"} else {})
                           + (if takeProfit.Some? then {"takeProfit"} else {})
    ensures params["category"] == Text("linear") && params["symbol"] == Text(marketId)
    ensures stopLoss.Some? ==> params["stopLoss"] == Number(stopLoss.value)
    ensures takeProfit.Some? ==> params["takeProfit"] == Number(takeProfit.value)
  {
    params := map["category" := Text("linear"), "symbol" := Text(marketId)];
    if stopLoss.Some? {
      params := params["stopLoss" := Number(stopLoss.value)];
    }
    if takeProfit.Some? {
      params := params["takeProfit" := Number(takeProfit.value)];
    }
  }

  /** The extra parameters `create_limit` sends. */
  method LimitOrderParams(postOnly: bool) returns (params: map<string, ParamValue>)
    ensures params.Keys == if postOnly then {"postOnly"} else {}
    ensures postOnly ==> params["postOnly"] == Flag(true)
  {
    params := map[];
    if postOnly {
      params := params["postOnly" := Flag(true)];
    }
  }
}
