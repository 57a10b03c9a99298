/** Indicator mathematics over price series. Prices are reals; a missing
    value (pandas NaN, from a warm-up window or an undefined ratio) is None.
    `round(2)` is numpy's round-half-to-even on the second decimal. */
module Indicators {
  import opened Wrappers

  // ---------------------------------------------------------------------
  // Rounding
  // ---------------------------------------------------------------------

  /** Nearest integer to y, ties to the even neighbour. */
  function RoundHalfEven(y: real): (n: int)
    ensures -0.5 <= n as real - y <= 0.5
  {
    var f := y.Floor;
    var d := y - f as real;
    if d > 0.5 then f + 1
    else if d < 0.5 then f
    else if f % 2 == 0 then f else f + 1
  }

  /** Series.round(2). */
  function Round2(x: real): (r: real)
    ensures -0.005 <= r - x <= 0.005
    ensures (r * 100.0).Floor as real == r * 100.0
  {
    var n := RoundHalfEven(100.0 * x);
    assert n as real / 100.0 * 100.0 == n as real;
    n as real / 100.0
  }

  lemma {:induction false} RoundHalfEvenMonotone(a: real, b: real)
    requires a <= b
    ensures RoundHalfEven(a) <= RoundHalfEven(b)
  {
    var fa, fb := a.Floor, b.Floor;
    assert fa <= fb;
    if fa == fb {
      assert a - fa as real <= b - fb as real;
    } else {
      assert fa + 1 <= fb;
    }
  }

  lemma {:induction false} Round2Monotone(a: real, b: real)
    requires a <= b
    ensures Round2(a) <= Round2(b)
  {
    RoundHalfEvenMonotone(100.0 * a, 100.0 * b);
  }

  /** Whole numbers (0 and 100 in particular) are left as they are. */
  lemma {:induction false} Round2Whole(k: int)
    ensures Round2(k as real) == k as real
  {
    assert (100.0 * k as real).Floor == 100 * k;
    assert RoundHalfEven(100.0 * k as real) == 100 * k;
  }

  /** Rounding keeps a value inside an interval with whole-number ends. */
  lemma {:induction false} Round2Within(x: real, lo: int, hi: int)
    requires lo as real <= x <= hi as real
    ensures lo as real <= Round2(x) <= hi as real
  {
    Round2Monotone(lo as real, x);
    Round2Monotone(x, hi as real);
    Round2Whole(lo);
    Round2Whole(hi);
  }

  function RoundOpt(v: Option<real>): (r: Option<real>)
    ensures r.Some? <==> v.Some?
  {
    match v
    case Some(x) => Some(Round2(x))
    case None => None
  }

  function RoundAll(s: seq<Option<real>>): (r: seq<Option<real>>)
    ensures |r| == |s|
    ensures forall i :: 0 <= i < |s| ==> r[i] == RoundOpt(s[i])
  {
    seq(|s|, i requires 0 <= i < |s| => RoundOpt(s[i]))
  }

  function RoundReals(s: seq<real>): (r: seq<real>)
    ensures |r| == |s|
    ensures forall i :: 0 <= i < |s| ==> r[i] == Round2(s[i])
  {
    seq(|s|, i requires 0 <= i < |s| => Round2(s[i]))
  }

  function Lift(s: seq<real>): (r: seq<Option<real>>)
    ensures |r| == |s|
    ensures forall i :: 0 <= i < |s| ==> r[i] == Some(s[i])
  {
    seq(|s|, i requires 0 <= i < |s| => Some(s[i]))
  }

  // ---------------------------------------------------------------------
  // The safe_indicator decorator
  // ---------------------------------------------------------------------

  /** A series of n missing values: pd.Series(index=..., dtype=float). */
  function Missing<T>(n: nat): (r: seq<Option<T>>)
    ensures |r| == n && forall i :: 0 <= i < n ==> r[i].None?
  {
    seq(n, i => None)
  }

  /** The decorator: the wrapped result, or on failure an all-missing
      series on the input's index; the failure never escapes. */
  function Safe<T>(r: Result<seq<Option<T>>>, n: nat): (s: seq<Option<T>>)
    ensures r.Err? ==> s == Missing(n)
    ensures r.Ok? ==> s == r.value
  {
    match r
    case Ok(v) => v
    case Err(_) => Missing(n)
  }

  // ---------------------------------------------------------------------
  // Window statistics
  // ---------------------------------------------------------------------

  function Sum(w: seq<real>): real {
    if w == [] then 0.0 else Sum(w[..|w| - 1]) + w[|w| - 1]
  }

  function Mean(w: seq<real>): real
    requires |w| > 0
  {
    Sum(w) / |w| as real
  }

  predicate Within(w: seq<real>, lo: real, hi: real) {
    forall i :: 0 <= i < |w| ==> lo <= w[i] <= hi
  }

  lemma {:induction false} SumWithin(w: seq<real>, lo: real, hi: real)
    requires Within(w, lo, hi)
    ensures |w| as real * lo <= Sum(w) <= |w| as real * hi
  {
    if w != [] {
      var init := w[..|w| - 1];
      assert Within(init, lo, hi);
      SumWithin(init, lo, hi);
      var k := |init| as real;
      assert |w| as real * lo == k * lo + lo;
      assert |w| as real * hi == k * hi + hi;
    }
  }

  lemma {:induction false} DivWithin(a: real, b: real, lo: real, hi: real)
    requires b > 0.0 && b * lo <= a <= b * hi
    ensures lo <= a / b <= hi
  {
    var v := a / b;
    assert v - lo == (a - b * lo) / b;
    assert hi - v == (b * hi - a) / b;
  }

  /** A mean lies between any bounds of its window. */
  lemma {:induction false} MeanWithin(w: seq<real>, lo: real, hi: real)
    requires |w| > 0 && Within(w, lo, hi)
    ensures lo <= Mean(w) <= hi
  {
    SumWithin(w, lo, hi);
    DivWithin(Sum(w), |w| as real, lo, hi);
  }

  /** The `p` values ending at index t. */
  function Window(x: seq<real>, t: int, p: int): (w: seq<real>)
    requires 1 <= p && p - 1 <= t < |x|
    ensures |w| == p
  {
    x[t - p + 1..t + 1]
  }

  /** rolling(p).mean(): defined once p values are available. */
  function RollingMean(x: seq<real>, p: int): (r: seq<Option<real>>)
    requires p >= 1
    ensures |r| == |x|
    ensures forall t :: 0 <= t < |x| ==> (r[t].Some? <==> t >= p - 1)
  {
    seq(|x|, t requires 0 <= t < |x| => if t >= p - 1 then Some(Mean(Window(x, t, p))) else None)
  }

  /** Simple moving average: rolling(p).mean().round(2). */
  function Sma(x: seq<real>, p: int): (r: seq<Option<real>>)
    requires p >= 1
    ensures |r| == |x|
    ensures forall t :: 0 <= t < |x| ==> (r[t].Some? <==> t >= p - 1)
  {
    RoundAll(RollingMean(x, p))
  }

  /** Where defined, the SMA lies between its window's bounds widened by
      the rounding error. */
  lemma {:induction false} SmaWithinWindow(x: seq<real>, p: int, t: int, lo: real, hi: real)
    requires 1 <= p && p - 1 <= t < |x| && Within(Window(x, t, p), lo, hi)
    ensures Sma(x, p)[t].Some?
    ensures lo - 0.005 <= Sma(x, p)[t].value <= hi + 0.005
  {
    MeanWithin(Window(x, t, p), lo, hi);
  }

  // ---------------------------------------------------------------------
  // Exponentially weighted mean (ewm(..., adjust=False).mean())
  // ---------------------------------------------------------------------

  /** r[0] = x[0], r[t] = alpha * x[t] + (1 - alpha) * r[t - 1], built from
      the shorter prefix. */
  function Ewm(x: seq<real>, alpha: real): (r: seq<real>)
    ensures |r| == |x|
    decreases |x|
  {
    if |x| <= 1 then x
    else
      var p := Ewm(x[..|x| - 1], alpha);
      p + [alpha * x[|x| - 1] + (1.0 - alpha) * p[|p| - 1]]
  }

  lemma {:induction false} EwmPrefix(x: seq<real>, alpha: real, k: nat)
    requires k <= |x|
    ensures Ewm(x, alpha)[..k] == Ewm(x[..k], alpha)
    decreases |x|
  {
    if k < |x| && |x| > 1 {
      EwmPrefix(x[..|x| - 1], alpha, k);
      assert x[..|x| - 1][..k] == x[..k];
    } else if k == |x| {
      assert x[..k] == x;
    }
  }

  /** The recurrence pandas documents for adjust=False, index by index. */
  lemma {:induction false} EwmRecurrence(x: seq<real>, alpha: real, t: nat)
    requires t < |x|
    ensures t == 0 ==> Ewm(x, alpha)[0] == x[0]
    ensures t > 0 ==> Ewm(x, alpha)[t] == alpha * x[t] + (1.0 - alpha) * Ewm(x, alpha)[t - 1]
  {
    EwmPrefix(x, alpha, t + 1);
    var p := x[..t + 1];
    assert Ewm(x, alpha)[t] == Ewm(p, alpha)[t];
    if t > 0 {
      EwmPrefix(p, alpha, t);
      assert p[..t] == x[..t];
      EwmPrefix(x, alpha, t);
      assert Ewm(p, alpha)[t - 1] == Ewm(x, alpha)[t - 1];
    }
  }

  /** A convex combination of two values in [lo, hi] stays in [lo, hi]. */
  lemma {:induction false} ConvexWithin(alpha: real, a: real, b: real, lo: real, hi: real)
    requires 0.0 <= alpha <= 1.0 && lo <= a <= hi && lo <= b <= hi
    ensures lo <= alpha * a + (1.0 - alpha) * b <= hi
  {
    ConvexAtLeast(alpha, a, b, lo);
    ConvexAtLeast(alpha, -a, -b, -hi);
  }

  lemma {:induction false} ConvexAtLeast(alpha: real, a: real, b: real, lo: real)
    requires 0.0 <= alpha <= 1.0 && lo <= a && lo <= b
    ensures lo <= alpha * a + (1.0 - alpha) * b
  {
    assert alpha * (a - lo) >= 0.0;
    assert (1.0 - alpha) * (b - lo) >= 0.0;
    assert alpha * a + (1.0 - alpha) * b == lo + alpha * (a - lo) + (1.0 - alpha) * (b - lo);
  }

  /** Smoothing values that are all at least lo gives values at least lo. */
  lemma {:induction false} EwmAtLeast(x: seq<real>, alpha: real, lo: real)
    requires 0.0 <= alpha <= 1.0 && forall i :: 0 <= i < |x| ==> lo <= x[i]
    ensures forall i :: 0 <= i < |x| ==> lo <= Ewm(x, alpha)[i]
    decreases |x|
  {
    if |x| > 1 {
      var q := x[..|x| - 1];
      EwmAtLeast(q, alpha, lo);
      var p := Ewm(q, alpha);
      ConvexAtLeast(alpha, x[|x| - 1], p[|p| - 1], lo);
    }
  }

  /** The smoothed value never leaves the range of its inputs. */
  lemma {:induction false} EwmWithin(x: seq<real>, alpha: real, lo: real, hi: real)
    requires 0.0 <= alpha <= 1.0 && Within(x, lo, hi)
    ensures Within(Ewm(x, alpha), lo, hi)
    decreases |x|
  {
    if |x| > 1 {
      var q := x[..|x| - 1];
      assert Within(q, lo, hi);
      EwmWithin(q, alpha, lo, hi);
      var p := Ewm(q, alpha);
      ConvexWithin(alpha, x[|x| - 1], p[|p| - 1], lo, hi);
    }
  }

  /** Smoothing a constant series gives the same constant. */
  lemma {:induction false} EwmConstant(x: seq<real>, alpha: real, c: real)
    requires 0.0 <= alpha <= 1.0 && Within(x, c, c)
    ensures Within(Ewm(x, alpha), c, c)
  {
    EwmWithin(x, alpha, c, c);
  }

  /** ewm(..., min_periods=p): missing until p observations are in. */
  function WithMinPeriods(r: seq<real>, p: int): (s: seq<Option<real>>)
    ensures |s| == |r|
    ensures forall t :: 0 <= t < |r| ==> s[t] == (if t + 1 >= p then Some(r[t]) else None)
  {
    seq(|r|, t requires 0 <= t < |r| => if t + 1 >= p then Some(r[t]) else None)
  }

  // ---------------------------------------------------------------------
  // EMA and MACD
  // ---------------------------------------------------------------------

  /** ewm(span=s): alpha = 2 / (s + 1). */
  function SpanAlpha(span: int): (alpha: real)
    requires span >= 1
    ensures 0.0 < alpha <= 1.0
  {
    2.0 / (span as real + 1.0)
  }

  /** calculate_ema: span below 1 makes pandas raise. */
  function Ema(x: seq<real>, span: int): (r: Result<seq<real>>)
    ensures r.Ok? <==> span >= 1
    ensures r.Ok? ==> |r.value| == |x|
  {
    if span < 1 then Err("span must satisfy: span >= 1")
    else Ok(RoundReals(Ewm(x, SpanAlpha(span))))
  }

  /** An EMA stays within the range of its input, up to rounding. */
  lemma {:induction false} EmaWithin(x: seq<real>, span: int, lo: real, hi: real)
    requires span >= 1 && Within(x, lo, hi)
    ensures Ema(x, span).Ok? && Within(Ema(x, span).value, lo - 0.005, hi + 0.005)
  {
    EwmWithin(x, SpanAlpha(span), lo, hi);
  }

  /** The unrounded MACD line: EMA(12) - EMA(26) of the close. */
  function MacdLine(close: seq<real>): (m: seq<real>)
    ensures |m| == |close|
  {
    var e12 := Ewm(close, SpanAlpha(12));
    var e26 := Ewm(close, SpanAlpha(26));
    seq(|close|, t requires 0 <= t < |close| => e12[t] - e26[t])
  }

  /** calculate_macd: (macd.round(2), signal.round(2)), where the signal is
      EMA(9) of the unrounded MACD line. */
  function Macd(close: seq<real>): (r: (seq<real>, seq<real>))
    ensures |r.0| == |close| && |r.1| == |close|
  {
    var m := MacdLine(close);
    (RoundReals(m), RoundReals(Ewm(m, SpanAlpha(9))))
  }

  /** A flat close gives a zero MACD and a zero signal. */
  lemma {:induction false} MacdFlat(close: seq<real>, c: real)
    requires Within(close, c, c)
    ensures Within(Macd(close).0, 0.0, 0.0) && Within(Macd(close).1, 0.0, 0.0)
  {
    EwmConstant(close, SpanAlpha(12), c);
    EwmConstant(close, SpanAlpha(26), c);
    var m := MacdLine(close);
    assert Within(m, 0.0, 0.0);
    EwmConstant(m, SpanAlpha(9), 0.0);
    Round2Whole(0);
  }

  // ---------------------------------------------------------------------
  // WMA
  // ---------------------------------------------------------------------

  /** sum of (i + 1) * w[i]: the weights 1..|w| of np.dot(x, weights). */
  function WeightedSum(w: seq<real>): real {
    if w == [] then 0.0 else WeightedSum(w[..|w| - 1]) + |w| as real * w[|w| - 1]
  }

  /** weights.sum() = 1 + 2 + ... + n. */
  function WeightTotal(n: nat): (s: real)
    ensures n > 0 ==> s >= 1.0
  {
    if n == 0 then 0.0 else WeightTotal(n - 1) + n as real
  }

  /** One more weighted term keeps the weighted sum between the bounds. */
  lemma StepBounds(tq: real, sq: real, n: real, x: real, lo: real, hi: real)
    requires tq * lo <= sq <= tq * hi && n >= 0.0 && lo <= x <= hi
    ensures (tq + n) * lo <= sq + n * x <= (tq + n) * hi
  {
    assert n * (x - lo) >= 0.0;
    assert n * (hi - x) >= 0.0;
    assert (tq + n) * lo == tq * lo + n * lo;
    assert (tq + n) * hi == tq * hi + n * hi;
  }

  lemma {:induction false} WeightedSumWithin(w: seq<real>, lo: real, hi: real)
    requires Within(w, lo, hi)
    ensures WeightTotal(|w|) * lo <= WeightedSum(w) <= WeightTotal(|w|) * hi
  {
    if w != [] {
      var q := w[..|w| - 1];
      assert Within(q, lo, hi) by {
        forall i | 0 <= i < |q| ensures lo <= q[i] <= hi {
          assert q[i] == w[i];
        }
      }
      WeightedSumWithin(q, lo, hi);
      StepBounds(WeightTotal(|q|), WeightedSum(q), |w| as real, w[|w| - 1], lo, hi);
    }
  }

  /** calculate_wma before rounding: defined once p values are in. */
  function WmaRaw(x: seq<real>, p: int): (r: seq<Option<real>>)
    requires p >= 1
    ensures |r| == |x|
    ensures forall t :: 0 <= t < |x| ==> (r[t].Some? <==> t >= p - 1)
  {
    seq(|x|, t requires 0 <= t < |x| =>
      if t >= p - 1 then Some(WeightedSum(Window(x, t, p)) / WeightTotal(p)) else None)
  }

  /** calculate_wma; a period below 1 is a failure. */
  function Wma(x: seq<real>, p: int): (r: Result<seq<Option<real>>>)
    ensures r.Ok? <==> p >= 1
    ensures r.Ok? ==> |r.value| == |x|
    ensures r.Ok? ==> forall t :: 0 <= t < |x| ==> (r.value[t].Some? <==> t >= p - 1)
  {
    if p < 1 then Err("period must be positive") else Ok(RoundAll(WmaRaw(x, p)))
  }

  /** The weighted mean lies between its window's bounds. */
  lemma {:induction false} WmaWithinWindow(x: seq<real>, p: int, t: int, lo: real, hi: real)
    requires 1 <= p && p - 1 <= t < |x| && Within(Window(x, t, p), lo, hi)
    ensures WmaRaw(x, p)[t].Some?
    ensures lo <= WmaRaw(x, p)[t].value <= hi
  {
    var w := Window(x, t, p);
    WeightedSumWithin(w, lo, hi);
    DivWithin(WeightedSum(w), WeightTotal(p), lo, hi);
  }

  // ---------------------------------------------------------------------
  // RSI
  // ---------------------------------------------------------------------

  function Max(a: real, b: real): real { if a >= b then a else b }

  /** delta.clip(lower=0) and -delta.clip(upper=0) from index 1 on (the
      first difference is missing, and ewm skips it). */
  function Gains(close: seq<real>): (g: seq<real>)
    ensures |g| == if |close| == 0 then 0 else |close| - 1
    ensures forall i :: 0 <= i < |g| ==> g[i] == Max(close[i + 1] - close[i], 0.0)
  {
    if |close| <= 1 then [] else seq(|close| - 1, i requires 0 <= i < |close| - 1 => Max(close[i + 1] - close[i], 0.0))
  }

  function Losses(close: seq<real>): (l: seq<real>)
    ensures |l| == if |close| == 0 then 0 else |close| - 1
    ensures forall i :: 0 <= i < |l| ==> l[i] == Max(close[i] - close[i + 1], 0.0)
  {
    if |close| <= 1 then [] else seq(|close| - 1, i requires 0 <= i < |close| - 1 => Max(close[i] - close[i + 1], 0.0))
  }

  /** Wilder's average of a non-negative change series at index t of the
      close (alpha = 1/p, min_periods = p): missing until t >= p. */
  function WilderAt(changes: seq<real>, p: int, t: nat): (r: Option<real>)
    requires p >= 1 && t <= |changes|
  {
    if t < p || t == 0 then None else Some(Ewm(changes, 1.0 / p as real)[t - 1])
  }

  /** One RSI value from the two averages: 100 - 100 / (1 + gain/loss),
      with fillna(100) where either is missing or the loss is 0 (which
      replace(0, nan) turns into a missing ratio). */
  function RsiValue(avgGain: Option<real>, avgLoss: Option<real>): (v: real)
    requires avgGain.Some? ==> avgGain.value >= 0.0
    requires avgLoss.Some? ==> avgLoss.value >= 0.0
    ensures 0.0 <= v <= 100.0
    ensures avgGain.None? || avgLoss.None? || avgLoss.value == 0.0 ==> v == 100.0
  {
    if avgGain.None? || avgLoss.None? || avgLoss.value == 0.0 then 100.0
    else
      var rs := avgGain.value / avgLoss.value;
      assert rs >= 0.0;
      assert 100.0 / (1.0 + rs) <= 100.0;
      100.0 - 100.0 / (1.0 + rs)
  }

  /** The RSI at index t of the close. */
  function RsiAt(close: seq<real>, p: int, t: nat): real
    requires p >= 1 && t < |close|
  {
    var g, l := Gains(close), Losses(close);
    WilderNonNegative(g, p, t);
    WilderNonNegative(l, p, t);
    Round2(RsiValue(WilderAt(g, p, t), WilderAt(l, p, t)))
  }

  /** calculate_rsi_series; a period below 1 makes 1/period or ewm raise. */
  function Rsi(close: seq<real>, p: int): (r: Result<seq<real>>)
    ensures r.Ok? <==> p >= 1
    ensures r.Ok? ==> |r.value| == |close|
  {
    if p < 1 then Err("alpha must satisfy: 0 < alpha <= 1")
    else
      Ok(seq(|close|, t requires 0 <= t < |close| => RsiAt(close, p, t)))
  }

  lemma SumNonNegative(w: seq<real>)
    requires forall k :: 0 <= k < |w| ==> w[k] >= 0.0
    ensures Sum(w) >= 0.0
  {
    if w != [] {
      var q := w[..|w| - 1];
      assert forall k :: 0 <= k < |q| ==> q[k] >= 0.0;
      SumNonNegative(q);
    }
  }

  /** A series of non-negative values smooths to a non-negative value. */
  lemma {:induction false} WilderNonNegative(changes: seq<real>, p: int, t: nat)
    requires p >= 1 && t <= |changes|
    requires forall i :: 0 <= i < |changes| ==> changes[i] >= 0.0
    ensures WilderAt(changes, p, t).Some? ==> WilderAt(changes, p, t).value >= 0.0
  {
    if t >= p && t > 0 {
      EwmAtLeast(changes, 1.0 / p as real, 0.0);
    }
  }

  /** Every RSI value lies in [0, 100] and is never missing; it is 100
      during the warm-up and wherever the average loss is 0. */
  lemma {:induction false} RsiBounds(close: seq<real>, p: int, t: nat)
    requires p >= 1 && t < |close|
    ensures 0.0 <= Rsi(close, p).value[t] <= 100.0
    ensures t < p ==> Rsi(close, p).value[t] == 100.0
    ensures WilderAt(Losses(close), p, t) == Some(0.0) ==> Rsi(close, p).value[t] == 100.0
  {
    var g, l := Gains(close), Losses(close);
    WilderNonNegative(g, p, t);
    WilderNonNegative(l, p, t);
    assert Rsi(close, p).value[t] == RsiAt(close, p, t);
    Round2Within(RsiValue(WilderAt(g, p, t), WilderAt(l, p, t)), 0, 100);
    Round2Whole(100);
  }

  /** Where both averages are defined and the loss is positive, the RSI is
      the gain share 100 * G / (G + L) (rounded). */
  lemma {:induction false} RsiGainShare(g: real, l: real)
    requires g >= 0.0 && l > 0.0
    ensures RsiValue(Some(g), Some(l)) == 100.0 * g / (g + l)
  {
    var rs := g / l;
    var d := 1.0 + rs;
    assert rs * l == g;
    assert d * l == g + l;
    assert d == (g + l) / l;
    assert 100.0 / d == 100.0 * l / (g + l);
    var s := g + l;
    assert 100.0 * l / s + 100.0 * g / s == 100.0 * (l + g) / s;
    assert 100.0 * (l + g) / s == 100.0;
  }

  /** A flat close never loses, so its RSI is 100 throughout. */
  lemma {:induction false} RsiFlat(close: seq<real>, p: int, c: real, t: nat)
    requires p >= 1 && t < |close| && Within(close, c, c)
    ensures Rsi(close, p).value[t] == 100.0
  {
    var l := Losses(close);
    assert Within(l, 0.0, 0.0);
    if t >= p && t > 0 {
      EwmConstant(l, 1.0 / p as real, 0.0);
    }
    RsiBounds(close, p, t);
  }

  // ---------------------------------------------------------------------
  // Bollinger bands
  // ---------------------------------------------------------------------

  function SquaredDeviations(w: seq<real>, m: real): (d: seq<real>)
    ensures |d| == |w|
    ensures forall i :: 0 <= i < |w| ==> d[i] == (w[i] - m) * (w[i] - m)
  {
    seq(|w|, i requires 0 <= i < |w| => (w[i] - m) * (w[i] - m))
  }

  /** rolling(p).std(): the sample deviation (ddof = 1), so it needs two
      values; `sqrt` is the square root, which reals lack. */
  function SampleStd(w: seq<real>, sqrt: real -> real): real
    requires |w| >= 2
  {
    sqrt(Sum(SquaredDeviations(w, Mean(w))) / (|w| - 1) as real)
  }

  /** The three bands before rounding: (upper, middle, lower). */
  function BollingerRaw(close: seq<real>, p: int, mult: real, sqrt: real -> real)
    : (r: (seq<Option<real>>, seq<Option<real>>, seq<Option<real>>))
    requires p >= 1
    ensures |r.0| == |close| && |r.1| == |close| && |r.2| == |close|
  {
    var mid := RollingMean(close, p);
    var std := seq(|close|, t requires 0 <= t < |close| =>
      if p >= 2 && t >= p - 1 then Some(SampleStd(Window(close, t, p), sqrt)) else None);
    (seq(|close|, t requires 0 <= t < |close| =>
       if mid[t].Some? && std[t].Some? then Some(mid[t].value + mult * std[t].value) else None),
     mid,
     seq(|close|, t requires 0 <= t < |close| =>
       if mid[t].Some? && std[t].Some? then Some(mid[t].value - mult * std[t].value) else None))
  }

  /** calculate_bollinger(close, period, std_mult); a window below 1 is a
      failure. */
  function Bollinger(close: seq<real>, p: int, mult: real, sqrt: real -> real)
    : (r: Result<(seq<Option<real>>, seq<Option<real>>, seq<Option<real>>)>)
    ensures r.Ok? <==> p >= 1
    ensures r.Ok? ==> |r.value.0| == |close| && |r.value.1| == |close| && |r.value.2| == |close|
    ensures r.Ok? ==> forall t :: 0 <= t < |close| ==>
      (r.value.1[t].Some? <==> t >= p - 1)
      && (r.value.0[t].Some? <==> p >= 2 && t >= p - 1)
      && (r.value.2[t].Some? <==> p >= 2 && t >= p - 1)
  {
    if p < 1 then Err("window must be positive")
    else
      var raw := BollingerRaw(close, p, mult, sqrt);
      Ok((RoundAll(raw.0), RoundAll(raw.1), RoundAll(raw.2)))
  }

  /** The unrounded bands sit at equal distance mult * std >= 0 from the
      middle band. */
  lemma {:induction false} BollingerSymmetric(close: seq<real>, p: int, mult: real, sqrt: real -> real, t: nat)
    requires p >= 2 && p - 1 <= t < |close| && mult >= 0.0
    requires forall v :: v >= 0.0 ==> sqrt(v) >= 0.0
    ensures BollingerRaw(close, p, mult, sqrt).0[t].Some?
    ensures BollingerRaw(close, p, mult, sqrt).2[t].Some?
    ensures BollingerRaw(close, p, mult, sqrt).0[t].value - BollingerRaw(close, p, mult, sqrt).1[t].value
      == BollingerRaw(close, p, mult, sqrt).1[t].value - BollingerRaw(close, p, mult, sqrt).2[t].value
      == mult * SampleStd(Window(close, t, p), sqrt)
      >= 0.0
  {
    var w := Window(close, t, p);
    var d := SquaredDeviations(w, Mean(w));
    forall i | 0 <= i < |d| ensures d[i] >= 0.0 { }
    SumNonNegative(d);
    assert Sum(d) / (|w| - 1) as real >= 0.0;
  }

  /** The rounded bands are ordered: lower <= middle <= upper. */
  lemma {:induction false} BollingerOrdered(close: seq<real>, p: int, mult: real, sqrt: real -> real, t: nat)
    requires p >= 2 && p - 1 <= t < |close| && mult >= 0.0
    requires forall v :: v >= 0.0 ==> sqrt(v) >= 0.0
    ensures Bollinger(close, p, mult, sqrt).Ok?
    ensures Bollinger(close, p, mult, sqrt).value.2[t].value <= Bollinger(close, p, mult, sqrt).value.1[t].value
      <= Bollinger(close, p, mult, sqrt).value.0[t].value
  {
    var raw := BollingerRaw(close, p, mult, sqrt);
    BollingerSymmetric(close, p, mult, sqrt, t);
    Round2Monotone(raw.2[t].value, raw.1[t].value);
    Round2Monotone(raw.1[t].value, raw.0[t].value);
  }

  // ---------------------------------------------------------------------
  // True range and ATR
  // ---------------------------------------------------------------------

  function Abs(x: real): real { if x < 0.0 then -x else x }

  /** The price columns the indicators read. */
  datatype Bar = Bar(open: real, high: real, low: real, close: real, adjClose: real)

  /** tr[t] = max(high - low, |high - close[t-1]|, |low - close[t-1]|); on
      the first bar the shifted close is missing and max skips it. */
  function TrueRangeAt(bars: seq<Bar>, t: nat): (r: real)
    requires t < |bars|
    ensures t == 0 ==> r == bars[0].high - bars[0].low
    ensures t >= 1 ==>
      var hl, hc, lc := bars[t].high - bars[t].low, Abs(bars[t].high - bars[t - 1].close), Abs(bars[t].low - bars[t - 1].close);
      r >= hl && r >= hc && r >= lc && (r == hl || r == hc || r == lc)
  {
    if t == 0 then bars[0].high - bars[0].low
    else Max(Max(bars[t].high - bars[t].low, Abs(bars[t].high - bars[t - 1].close)), Abs(bars[t].low - bars[t - 1].close))
  }

  /** The true-range series, one value per bar. */
  function TrueRange(bars: seq<Bar>): (tr: seq<real>)
    ensures |tr| == |bars|
    ensures forall t :: 0 <= t < |bars| ==> tr[t] == TrueRangeAt(bars, t)
  {
    seq(|bars|, t requires 0 <= t < |bars| => TrueRangeAt(bars, t))
  }

  /** calculate_atr before the decorator: Wilder average of the true range
      (alpha = 1/p, min_periods = p), rounded. */
  function Atr(bars: seq<Bar>, p: int): (r: Result<seq<Option<real>>>)
    ensures r.Ok? <==> p >= 1
    ensures r.Ok? ==> |r.value| == |bars|
    ensures r.Ok? ==> forall t :: 0 <= t < |bars| ==> (r.value[t].Some? <==> t >= p - 1)
  {
    if p < 1 then Err("alpha must satisfy: 0 < alpha <= 1")
    else Ok(RoundAll(WithMinPeriods(Ewm(TrueRange(bars), 1.0 / p as real), p)))
  }

  predicate HighAtLeastLow(bars: seq<Bar>) {
    forall t :: 0 <= t < |bars| ==> bars[t].high >= bars[t].low
  }

  /** With every high at or above its low, every defined ATR is >= 0. */
  lemma {:induction false} AtrNonNegative(bars: seq<Bar>, p: int, t: nat)
    requires p >= 1 && t < |bars| && HighAtLeastLow(bars)
    ensures Atr(bars, p).value[t].Some? ==> Atr(bars, p).value[t].value >= 0.0
  {
    var tr := TrueRange(bars);
    forall i | 0 <= i < |tr| ensures tr[i] >= 0.0 {
      if i > 0 { assert tr[i] >= Abs(bars[i].high - bars[i - 1].close); }
    }
    EwmAtLeast(tr, 1.0 / p as real, 0.0);
    var e := Ewm(tr, 1.0 / p as real);
    if t + 1 >= p {
      Round2Monotone(0.0, e[t]);
      Round2Whole(0);
    }
  }
}
