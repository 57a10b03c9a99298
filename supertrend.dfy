/** The Supertrend indicator: ATR bands around the bar midpoint, carried
    forward by a band rule, then a direction that flips when the close
    crosses the previous Supertrend value. Comparisons with a missing value
    are false, as with NaN. */
module Supertrend {
  import opened Wrappers
  import opened Indicators

  /** a < b, false when either side is missing. */
  predicate Less(a: Option<real>, b: Option<real>) {
    a.Some? && b.Some? && a.value < b.value
  }

  /** hl2 + mult * atr and hl2 - mult * atr, missing where the ATR is. */
  function BasicBands(bars: seq<Bar>, atr: seq<Option<real>>, mult: real): (r: (seq<Option<real>>, seq<Option<real>>))
    requires |atr| == |bars|
    ensures |r.0| == |bars| && |r.1| == |bars|
    ensures forall i :: 0 <= i < |bars| ==> (r.0[i].Some? <==> atr[i].Some?) && (r.1[i].Some? <==> atr[i].Some?)
  {
    (seq(|bars|, i requires 0 <= i < |bars| =>
       if atr[i].Some? then Some((bars[i].high + bars[i].low) / 2.0 + mult * atr[i].value) else None),
     seq(|bars|, i requires 0 <= i < |bars| =>
       if atr[i].Some? then Some((bars[i].high + bars[i].low) / 2.0 - mult * atr[i].value) else None))
  }

  // ---------------------------------------------------------------------
  // The band rule as written: a missing previous band is never replaced
  // ---------------------------------------------------------------------

  function UpperAsWritten(ub: seq<Option<real>>, close: seq<real>, i: nat): Option<real>
    requires i < |ub| == |close|
  {
    if i == 0 then ub[0]
    else
      var prev := UpperAsWritten(ub, close, i - 1);
      if Less(ub[i], prev) || Less(prev, Some(close[i - 1])) then ub[i] else prev
  }

  function LowerAsWritten(lb: seq<Option<real>>, close: seq<real>, i: nat): Option<real>
    requires i < |lb| == |close|
  {
    if i == 0 then lb[0]
    else
      var prev := LowerAsWritten(lb, close, i - 1);
      if Less(prev, lb[i]) || Less(Some(close[i - 1]), prev) then lb[i] else prev
  }

  // ---------------------------------------------------------------------
  // The corrected band rule: a missing previous band takes the new one
  // ---------------------------------------------------------------------

  /** final_ub[i]: the new basic band when it is tighter or the close broke
      above the previous final band, else the previous final band. */
  function Upper(ub: seq<Option<real>>, close: seq<real>, i: nat): Option<real>
    requires i < |ub| == |close|
  {
    if i == 0 then ub[0]
    else
      var prev := Upper(ub, close, i - 1);
      if prev.None? || Less(ub[i], prev) || Less(prev, Some(close[i - 1])) then ub[i] else prev
  }

  /** final_lb[i], the mirror rule. */
  function Lower(lb: seq<Option<real>>, close: seq<real>, i: nat): Option<real>
    requires i < |lb| == |close|
  {
    if i == 0 then lb[0]
    else
      var prev := Lower(lb, close, i - 1);
      if prev.None? || Less(prev, lb[i]) || Less(Some(close[i - 1]), prev) then lb[i] else prev
  }

  // ---------------------------------------------------------------------
  // Direction
  // ---------------------------------------------------------------------

  /** (supertrend[i], direction[i]) before rounding: start on the upper band
      going down; go up onto the lower band when the close is above the
      previous value, else down onto the upper band. */
  function Trend(close: seq<real>, fub: seq<Option<real>>, flb: seq<Option<real>>, i: nat): (r: (Option<real>, int))
    requires i < |close| == |fub| == |flb|
    ensures r.1 == 1 || r.1 == -1
    ensures r.0 == if r.1 == 1 then flb[i] else fub[i]
    ensures r.1 == 1 <==> i > 0 && Less(Trend(close, fub, flb, i - 1).0, Some(close[i]))
  {
    if i == 0 then (fub[0], -1)
    else if Less(Trend(close, fub, flb, i - 1).0, Some(close[i])) then (flb[i], 1)
    else (fub[i], -1)
  }

  function Bands(bars: seq<Bar>, atrPeriod: int, mult: real): (r: (seq<Option<real>>, seq<Option<real>>))
    ensures |r.0| == |bars| && |r.1| == |bars|
  {
    BasicBands(bars, Safe(Atr(bars, atrPeriod), |bars|), mult)
  }

  function Closes(bars: seq<Bar>): (c: seq<real>)
    ensures |c| == |bars| && forall i :: 0 <= i < |bars| ==> c[i] == bars[i].close
  {
    seq(|bars|, i requires 0 <= i < |bars| => bars[i].close)
  }

  /** calculate_supertrend with the corrected band rule: the rounded
      Supertrend and the direction. An empty frame makes the source raise,
      and the decorator's fallback is then two empty series. */
  function SupertrendSpec(bars: seq<Bar>, atrPeriod: int, mult: real): (r: (seq<Option<real>>, seq<int>))
    ensures |r.0| == |bars| && |r.1| == |bars|
  {
    var b := Bands(bars, atrPeriod, mult);
    var c := Closes(bars);
    var fub := seq(|bars|, i requires 0 <= i < |bars| => Upper(b.0, c, i));
    var flb := seq(|bars|, i requires 0 <= i < |bars| => Lower(b.1, c, i));
    (seq(|bars|, i requires 0 <= i < |bars| => RoundOpt(Trend(c, fub, flb, i).0)),
     seq(|bars|, i requires 0 <= i < |bars| => Trend(c, fub, flb, i).1))
  }

  /** calculate_supertrend exactly as written. */
  function SupertrendAsWritten(bars: seq<Bar>, atrPeriod: int, mult: real): (r: (seq<Option<real>>, seq<int>))
    ensures |r.0| == |bars| && |r.1| == |bars|
  {
    var b := Bands(bars, atrPeriod, mult);
    var c := Closes(bars);
    var fub := seq(|bars|, i requires 0 <= i < |bars| => UpperAsWritten(b.0, c, i));
    var flb := seq(|bars|, i requires 0 <= i < |bars| => LowerAsWritten(b.1, c, i));
    (seq(|bars|, i requires 0 <= i < |bars| => RoundOpt(Trend(c, fub, flb, i).0)),
     seq(|bars|, i requires 0 <= i < |bars| => Trend(c, fub, flb, i).1))
  }

  // ---------------------------------------------------------------------
  // The loops over arrays
  // ---------------------------------------------------------------------

  /** One iteration of the first loop: final_ub[i] and final_lb[i] from
      their predecessors. */
  method BandStep(u: array<Option<real>>, l: array<Option<real>>, ub: seq<Option<real>>, lb: seq<Option<real>>,
                  close: seq<real>, i: nat)
    requires u != l && u.Length == l.Length == |ub| == |lb| == |close| && 1 <= i < u.Length
    requires u[i - 1] == Upper(ub, close, i - 1) && l[i - 1] == Lower(lb, close, i - 1)
    modifies u, l
    ensures u[i] == Upper(ub, close, i) && l[i] == Lower(lb, close, i)
    ensures forall k :: 0 <= k < u.Length && k != i ==> u[k] == old(u[k])
    ensures forall k :: 0 <= k < l.Length && k != i ==> l[k] == old(l[k])
  {
    var pu, pl := u[i - 1], l[i - 1];
    u[i] := if pu.None? || Less(ub[i], pu) || Less(pu, Some(close[i - 1])) then ub[i] else pu;
    l[i] := if pl.None? || Less(pl, lb[i]) || Less(Some(close[i - 1]), pl) then lb[i] else pl;
  }

  /** The first index loop of calculate_supertrend: final_ub and final_lb
      start as copies of the basic bands and are overwritten from index 1,
      with the corrected band rule. */
  method FinalBands(ub: seq<Option<real>>, lb: seq<Option<real>>, close: seq<real>)
    returns (fub: seq<Option<real>>, flb: seq<Option<real>>)
    requires |ub| == |lb| == |close|
    ensures |fub| == |ub| && |flb| == |ub|
    ensures forall k :: 0 <= k < |ub| ==> fub[k] == Upper(ub, close, k) && flb[k] == Lower(lb, close, k)
  {
    var n := |ub|;
    if n == 0 {
      return [], [];
    }
    var u := new Option<real>[n](i requires 0 <= i < n => ub[i]);
    var l := new Option<real>[n](i requires 0 <= i < n => lb[i]);
    var i := 1;
    while i < n
      invariant 1 <= i <= n
      invariant forall k :: 0 <= k < i ==> u[k] == Upper(ub, close, k)
      invariant forall k :: 0 <= k < i ==> l[k] == Lower(lb, close, k)
    {
      BandStep(u, l, ub, lb, close, i);
      i := i + 1;
    }
    fub, flb := u[..], l[..];
  }

  /** The second index loop: direction and Supertrend from index 1 on. */
  method Directions(close: seq<real>, fub: seq<Option<real>>, flb: seq<Option<real>>)
    returns (sup: seq<Option<real>>, dir: seq<int>)
    requires |close| == |fub| == |flb|
    ensures |sup| == |close| && |dir| == |close|
    ensures forall k :: 0 <= k < |close| ==> (sup[k], dir[k]) == Trend(close, fub, flb, k)
  {
    var n := |close|;
    if n == 0 {
      return [], [];
    }
    var s := new Option<real>[n](_ => None);
    var d := new int[n](_ => 0);
    s[0], d[0] := fub[0], -1;
    var i := 1;
    while i < n
      invariant 1 <= i <= n
      invariant forall k :: 0 <= k < i ==> (s[k], d[k]) == Trend(close, fub, flb, k)
    {
      if Less(s[i - 1], Some(close[i])) {
        d[i], s[i] := 1, flb[i];
      } else {
        d[i], s[i] := -1, fub[i];
      }
      i := i + 1;
    }
    sup, dir := s[..], d[..];
  }

  /** calculate_supertrend: the bands, both loops and the final rounding. */
  method ComputeSupertrend(bars: seq<Bar>, atrPeriod: int, mult: real) returns (st: seq<Option<real>>, dir: seq<int>)
    ensures (st, dir) == SupertrendSpec(bars, atrPeriod, mult)
  {
    var b := Bands(bars, atrPeriod, mult);
    var c := Closes(bars);
    var fub, flb := FinalBands(b.0, b.1, c);
    var sup;
    sup, dir := Directions(c, fub, flb);
    st := RoundAll(sup);
    ghost var spec := SupertrendSpec(bars, atrPeriod, mult);
    assert fub == seq(|bars|, i requires 0 <= i < |bars| => Upper(b.0, c, i));
    assert flb == seq(|bars|, i requires 0 <= i < |bars| => Lower(b.1, c, i));
    assert st == spec.0 && dir == spec.1;
  }

  // ---------------------------------------------------------------------
  // Properties
  // ---------------------------------------------------------------------

  /** With atr_period >= 2 the first ATR is missing, so as written both
      final bands stay missing for ever: the Supertrend is never defined and
      the direction is always -1. */
  lemma {:induction false} AsWrittenNeverDefined(bars: seq<Bar>, atrPeriod: int, mult: real, i: nat)
    requires atrPeriod >= 2 && i < |bars|
    ensures SupertrendAsWritten(bars, atrPeriod, mult).0[i].None?
    ensures SupertrendAsWritten(bars, atrPeriod, mult).1[i] == -1
  {
    var b := Bands(bars, atrPeriod, mult);
    var c := Closes(bars);
    var fub := seq(|bars|, k requires 0 <= k < |bars| => UpperAsWritten(b.0, c, k));
    var flb := seq(|bars|, k requires 0 <= k < |bars| => LowerAsWritten(b.1, c, k));
    assert b.0[0].None? && b.1[0].None?;
    forall k | 0 <= k <= i ensures fub[k].None? {
      BandsStayMissing(b.0, b.1, c, k);
    }
    forall k | 0 <= k <= i ensures flb[k].None? {
      BandsStayMissing(b.0, b.1, c, k);
    }
    TrendOnMissing(c, fub, flb, i);
  }

  lemma {:induction false} BandsStayMissing(ub: seq<Option<real>>, lb: seq<Option<real>>, close: seq<real>, i: nat)
    requires i < |ub| == |lb| == |close| && ub[0].None? && lb[0].None?
    ensures UpperAsWritten(ub, close, i).None? && LowerAsWritten(lb, close, i).None?
  {
    if i > 0 { BandsStayMissing(ub, lb, close, i - 1); }
  }

  lemma {:induction false} TrendOnMissing(close: seq<real>, fub: seq<Option<real>>, flb: seq<Option<real>>, i: nat)
    requires i < |close| == |fub| == |flb|
    requires forall k :: 0 <= k <= i ==> fub[k].None?
    ensures Trend(close, fub, flb, i) == (None, -1)
  {
    if i > 0 { TrendOnMissing(close, fub, flb, i - 1); }
  }

  /** Under the corrected rule the final bands are missing exactly while
      the basic bands are (the ATR warm-up). */
  lemma {:induction false} BandsDefinedAfterWarmup(ub: seq<Option<real>>, lb: seq<Option<real>>, close: seq<real>, w: nat, i: nat)
    requires i < |ub| == |lb| == |close|
    requires forall k :: 0 <= k < |ub| ==> (ub[k].Some? <==> k >= w) && (lb[k].Some? <==> k >= w)
    ensures Upper(ub, close, i).Some? <==> i >= w
    ensures Lower(lb, close, i).Some? <==> i >= w
  {
    if i > 0 { BandsDefinedAfterWarmup(ub, lb, close, w, i - 1); }
  }

  /** The corrected Supertrend is defined from the first bar with an ATR
      on, and the direction is always -1 or +1. */
  lemma {:induction false} DefinedAfterWarmup(bars: seq<Bar>, atrPeriod: int, mult: real, i: nat)
    requires atrPeriod >= 1 && i < |bars|
    ensures SupertrendSpec(bars, atrPeriod, mult).0[i].Some? <==> i >= atrPeriod - 1
    ensures SupertrendSpec(bars, atrPeriod, mult).1[i] in {-1, 1}
  {
    var b := Bands(bars, atrPeriod, mult);
    var c := Closes(bars);
    var fub := seq(|bars|, k requires 0 <= k < |bars| => Upper(b.0, c, k));
    var flb := seq(|bars|, k requires 0 <= k < |bars| => Lower(b.1, c, k));
    var w := atrPeriod - 1;
    forall k | 0 <= k < |bars| ensures fub[k].Some? <==> k >= w {
      BandsDefinedAfterWarmup(b.0, b.1, c, w, k);
    }
    forall k | 0 <= k < |bars| ensures flb[k].Some? <==> k >= w {
      BandsDefinedAfterWarmup(b.0, b.1, c, w, k);
    }
    var r := Trend(c, fub, flb, i);
    assert SupertrendSpec(bars, atrPeriod, mult).0[i] == RoundOpt(r.0);
  }

  /** When no basic band is missing the correction changes nothing. */
  lemma {:induction false} CorrectionConservative(ub: seq<Option<real>>, lb: seq<Option<real>>, close: seq<real>, i: nat)
    requires i < |ub| == |lb| == |close|
    requires forall k :: 0 <= k < |ub| ==> ub[k].Some? && lb[k].Some?
    ensures Upper(ub, close, i) == UpperAsWritten(ub, close, i) && Upper(ub, close, i).Some?
    ensures Lower(lb, close, i) == LowerAsWritten(lb, close, i) && Lower(lb, close, i).Some?
  {
    if i > 0 { CorrectionConservative(ub, lb, close, i - 1); }
  }

  /** The upper band only moves down while the close stays at or below it;
      the lower band only moves up while the close stays at or above it. */
  lemma BandsRatchet(ub: seq<Option<real>>, lb: seq<Option<real>>, close: seq<real>, i: nat)
    requires 1 <= i < |ub| == |lb| == |close|
    ensures var u, pu := Upper(ub, close, i), Upper(ub, close, i - 1);
      u.Some? && pu.Some? && close[i - 1] <= pu.value ==> u.value <= pu.value
    ensures var l, pl := Lower(lb, close, i), Lower(lb, close, i - 1);
      l.Some? && pl.Some? && close[i - 1] >= pl.value ==> l.value >= pl.value
  {
  }
}
