/** The EMA-crossover signal and its indicators. */
module Strategy {
  import opened Base

  datatype Signal = Buy | Sell | Hold

  /** `sum(s)`, accumulated left to right. */
  function Sum(s: seq<real>): real
    decreases |s|
  {
    if s == [] then 0.0 else Sum(s[..|s| - 1]) + s[|s| - 1]
  }

  /** The EMA smoothing factor `k = 2 / (period + 1)`. */
  function Smoothing(period: nat): (k: real)
    requires period >= 1
    ensures 0.0 < k <= 1.0
  {
    2.0 / (period as real + 1.0)
  }

  /** One smoothing step: `v * k + prev * (1 - k)`. */
  function EmaStep(v: real, prev: real, period: nat): real
    requires period >= 1
  {
    v * Smoothing(period) + prev * (1.0 - Smoothing(period))
  }

  /**
   * The series `_ema` returns: empty when there are fewer than `period` values,
   * otherwise one element per value from index `period - 1` on.
   */
  function EmaSeries(values: seq<real>, period: nat): (r: seq<real>)
    requires period >= 1
    ensures |values| < period ==> r == []
    ensures |values| >= period ==> |r| == |values| - period + 1
    ensures |values| >= period ==> r[0] == Sum(values[..period]) / period as real
    decreases |values|
  {
    if |values| < period then []
    else if |values| == period then
      assert values[..period] == values;
      [Sum(values) / period as real]
    else
      var prev := EmaSeries(values[..|values| - 1], period);
      assert values[..|values| - 1][..period] == values[..period];
      prev + [EmaStep(values[|values| - 1], prev[|prev| - 1], period)]
  }

  /** `_ema`: the seed is the mean of the first `period` values, then one smoothing step per value. */
  method Ema(values: seq<real>, period: nat) returns (ema: seq<real>)
    requires period >= 1
    ensures ema == EmaSeries(values, period)
  {
    if |values| < period {
      return [];
    }
    var k := 2.0 / (period as real + 1.0);
    ema := [Sum(values[..period]) / period as real];
    var i := period;
    assert values[..i][..period] == values[..period];
    while i < |values|
      invariant period <= i <= |values|
      invariant ema == EmaSeries(values[..i], period)
    {
      ghost var step := EmaStep(values[i], ema[|ema| - 1], period);
      ema := ema + [values[i] * k + ema[|ema| - 1] * (1.0 - k)];
      assert ema[|ema| - 1] == step;
      i := i + 1;
      assert values[..i][..i - 1] == values[..i - 1];
    }
    assert values[..i] == values;
  }

  /** Each element after the seed is `v * k + previous * (1 - k)`, `v` the value it stands for. */
  lemma {:induction false} EmaSeriesRecurrence(values: seq<real>, period: nat, j: nat)
    requires period >= 1 && |values| >= period && 1 <= j < |values| - period + 1
    ensures EmaSeries(values, period)[j]
         == EmaStep(values[period - 1 + j], EmaSeries(values, period)[j - 1], period)
    decreases |values|
  {
    var n := |values|;
    var prefix := values[..n - 1];
    var prev := EmaSeries(prefix, period);
    assert EmaSeries(values, period) == prev + [EmaStep(values[n - 1], prev[|prev| - 1], period)];
    if j < n - period {
      EmaSeriesRecurrence(prefix, period, j);
      assert prefix[period - 1 + j] == values[period - 1 + j];
    }
  }

  lemma {:induction false} SumBounds(s: seq<real>, lo: real, hi: real)
    requires forall i :: 0 <= i < |s| ==> lo <= s[i] <= hi
    ensures |s| as real * lo <= Sum(s) <= |s| as real * hi
    decreases |s|
  {
    if s != [] {
      SumBounds(s[..|s| - 1], lo, hi);
    }
  }

  /** A mean of values in `[lo, hi]` lies in `[lo, hi]`. */
  lemma MeanBounds(s: seq<real>, lo: real, hi: real)
    requires |s| >= 1
    requires forall i :: 0 <= i < |s| ==> lo <= s[i] <= hi
    ensures lo <= Sum(s) / |s| as real <= hi
  {
    SumBounds(s, lo, hi);
    var p := |s| as real;
    var m := Sum(s) / p;
    assert m * p == Sum(s);
    if m < lo {
      MulMono(m, lo, p);
      assert false;
    }
    if m > hi {
      MulMono(hi, m, p);
      assert false;
    }
  }

  /** A smoothing step of two values in `[lo, hi]` stays in `[lo, hi]`. */
  lemma ConvexBounds(v: real, prev: real, period: nat, lo: real, hi: real)
    requires period >= 1 && lo <= v <= hi && lo <= prev <= hi
    ensures lo <= EmaStep(v, prev, period) <= hi
  {
    var k := Smoothing(period);
    var j := 1.0 - k;
    assert j >= 0.0;
    assert EmaStep(v, prev, period) == v * k + prev * j;
    MulMono(lo, v, k);
    MulMono(v, hi, k);
    MulMono(lo, prev, j);
    MulMono(prev, hi, j);
    var a, b, c, d, e, f := lo * k, v * k, hi * k, lo * j, prev * j, hi * j;
    assert a <= b <= c && d <= e <= f;
    assert a + d <= b + e <= c + f;
    assert k + j == 1.0;
    assert lo * k + lo * j == lo * (k + j) by { Distrib(lo, k, j); }
    assert hi * k + hi * j == hi * (k + j) by { Distrib(hi, k, j); }
  }

  /** Every EMA element lies between the smallest and the largest input value. */
  lemma {:induction false} EmaSeriesBounded(values: seq<real>, period: nat, lo: real, hi: real)
    requires period >= 1
    requires forall i :: 0 <= i < |values| ==> lo <= values[i] <= hi
    ensures forall j :: 0 <= j < |EmaSeries(values, period)| ==> lo <= EmaSeries(values, period)[j] <= hi
    decreases |values|
  {
    var n := |values|;
    if n < period {
    } else if n == period {
      MeanBounds(values, lo, hi);
    } else {
      var prefix := values[..n - 1];
      EmaSeriesBounded(prefix, period, lo, hi);
      var prev := EmaSeries(prefix, period);
      ConvexBounds(values[n - 1], prev[|prev| - 1], period, lo, hi);
    }
  }

  /** The last element of `_ema(closes, period)`. */
  function LastEma(closes: seq<real>, period: nat): real
    requires period >= 1 && |closes| >= period
  {
    var e := EmaSeries(closes, period);
    e[|e| - 1]
  }

  /** `decide_signal`: HOLD below 60 closes, else the sign of EMA20 - EMA50. */
  function DecideSignal(closes: seq<real>): (sig: Signal)
    ensures |closes| < 60 ==> sig == Hold
    ensures |closes| >= 60 ==> (sig == Buy <==> LastEma(closes, 20) > LastEma(closes, 50))
    ensures |closes| >= 60 ==> (sig == Sell <==> LastEma(closes, 20) < LastEma(closes, 50))
  {
    if |closes| < 60 then Hold
    else
      var ema20 := EmaSeries(closes, 20);
      var ema50 := EmaSeries(closes, 50);
      if ema20[|ema20| - 1] > ema50[|ema50| - 1] then Buy
      else if ema20[|ema20| - 1] < ema50[|ema50| - 1] then Sell
      else Hold
  }

  /** A flat market (every close equal) never produces a BUY or SELL. */
  lemma FlatMarketHolds(closes: seq<real>, c: real)
    requires forall i :: 0 <= i < |closes| ==> closes[i] == c
    ensures DecideSignal(closes) == Hold
  {
    if |closes| >= 60 {
      EmaSeriesBounded(closes, 20, c, c);
      EmaSeriesBounded(closes, 50, c, c);
    }
  }

  /** Sum of the upward moves `values[m] - values[m-1]` for `lo <= m < hi`. */
  function Gains(values: seq<real>, lo: nat, hi: nat): (g: real)
    requires 1 <= lo <= hi <= |values|
    ensures g >= 0.0
    decreases hi
  {
    if lo == hi then 0.0
    else
      var d := values[hi - 1] - values[hi - 2];
      Gains(values, lo, hi - 1) + (if d >= 0.0 then d else 0.0)
  }

  /** Sum of the sizes of the downward moves for `lo <= m < hi`. */
  function Losses(values: seq<real>, lo: nat, hi: nat): (l: real)
    requires 1 <= lo <= hi <= |values|
    ensures l >= 0.0
    decreases hi
  {
    if lo == hi then 0.0
    else
      var d := values[hi - 1] - values[hi - 2];
      Losses(values, lo, hi - 1) + (if d >= 0.0 then 0.0 else -d)
  }

  /** `100 - 100 / (1 + gains / losses)`, or 100 when nothing was lost. */
  function RsiIndex(gains: real, losses: real): (r: real)
    requires gains >= 0.0 && losses >= 0.0
    ensures 0.0 <= r <= 100.0
    ensures losses == 0.0 ==> r == 100.0
  {
    if losses == 0.0 then 100.0
    else
      var rs := gains / losses;
      assert rs >= 0.0;
      var q := 100.0 / (1.0 + rs);
      assert q * (1.0 + rs) == 100.0;
      assert q > 0.0;
      MulMono(1.0, 1.0 + rs, q);
      100.0 - q
  }

  /** The value `_rsi(values, period)` returns. */
  function RsiOf(values: seq<real>, period: nat): (r: Option<real>)
    ensures |values| < period + 1 <==> r.None?
    ensures r.Some? ==> 0.0 <= r.value <= 100.0
  {
    if |values| < period + 1 then None
    else Some(RsiIndex(Gains(values, |values| - period, |values|),
                       Losses(values, |values| - period, |values|)))
  }

  /** `_rsi`: accumulates gains and losses over the last `period` moves. */
  method Rsi(values: seq<real>, period: nat) returns (r: Option<real>)
    ensures r == RsiOf(values, period)
  {
    if |values| < period + 1 {
      return None;
    }
    var n := |values|;
    var gains, losses := 0.0, 0.0;
    var i := n - period;
    while i < n
      invariant n - period <= i <= n
      invariant gains == Gains(values, n - period, i)
      invariant losses == Losses(values, n - period, i)
    {
      var diff := values[i] - values[i - 1];
      if diff >= 0.0 {
        gains := gains + diff;
      } else {
        losses := losses - diff;
      }
      i := i + 1;
    }
    if losses == 0.0 {
      return Some(100.0);
    }
    var rs := gains / losses;
    return Some(100.0 - 100.0 / (1.0 + rs));
  }

  /** With no downward move in the window the RSI is 100. */
  lemma RsiWithoutLosses(values: seq<real>, period: nat)
    requires |values| >= period + 1
    requires Losses(values, |values| - period, |values|) == 0.0
    ensures RsiOf(values, period) == Some(100.0)
  {
  }
}
