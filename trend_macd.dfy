/**
 * The trend_macd strategy: band touches confirmed by RSI, CCI, stochastic %D
 * and band width start a trend; a trend carries on while the MACD histogram
 * keeps its sign (hysteresis); leaving a trend raises a signal.
 */
module TrendMacd {
  import opened Common
  import opened BandHits
  import opened TrendBreak
  import TaTrendMacd

  datatype Options = Options(thresholds: Thresholds, params: TaTrendMacd.Params)

  /** The option defaults of the strategy. */
  const Defaults: Options := Options(
    Thresholds(0.0, 0.0, 0.10, 70.0, 30.0, 100.0, -100.0, 70.0, 30.0),
    TaTrendMacd.Params(52, 20, 2.0, 14, 12, 26, 9, 20, 0.015, 14, 3, 14, 3, 10))

  /** An upper hit now, or an uptrend on the previous bar with a positive histogram. */
  predicate IsUptrendNowOrBefore(p: Period, upperBound: real, prev: Option<Trend>, t: Thresholds)
  {
    IsUpperHit(p, upperBound, t) || (prev == Some(Up) && Above(p.macdHistogram, 0.0))
  }

  /** A lower hit now, or a downtrend on the previous bar with a negative histogram. */
  predicate IsDowntrendNowOrBefore(p: Period, lowerBound: real, prev: Option<Trend>, t: Thresholds)
  {
    IsLowerHit(p, lowerBound, t) || (prev == Some(Down) && Below(p.macdHistogram, 0.0))
  }

  /** The trend `updateTrend` writes, given the previous bar's trend; the up test comes first. */
  function NextTrend(p: Period, upperBound: real, lowerBound: real, prev: Option<Trend>, t: Thresholds): (trend: Trend)
  {
    if IsUptrendNowOrBefore(p, upperBound, prev, t) then Up
    else if IsDowntrendNowOrBefore(p, lowerBound, prev, t) then Down
    else Side
  }

  /** Each label has its own condition; 'side' exactly when neither the up nor the down condition holds. */
  lemma NextTrendCases(p: Period, upperBound: real, lowerBound: real, prev: Option<Trend>, t: Thresholds)
    ensures NextTrend(p, upperBound, lowerBound, prev, t) == Up <==>
      IsUptrendNowOrBefore(p, upperBound, prev, t)
    ensures NextTrend(p, upperBound, lowerBound, prev, t) == Down <==>
      !IsUptrendNowOrBefore(p, upperBound, prev, t) && IsDowntrendNowOrBefore(p, lowerBound, prev, t)
    ensures NextTrend(p, upperBound, lowerBound, prev, t) == Side <==>
      !IsUptrendNowOrBefore(p, upperBound, prev, t) && !IsDowntrendNowOrBefore(p, lowerBound, prev, t)
  {
  }

  /** Hysteresis: an uptrend carries on while the histogram is positive, hit or no hit. */
  lemma UptrendHolds(p: Period, upperBound: real, lowerBound: real, t: Thresholds)
    requires Above(p.macdHistogram, 0.0)
    ensures NextTrend(p, upperBound, lowerBound, Some(Up), t) == Up
  {
  }

  /** Hysteresis: a downtrend carries on while the histogram is negative, unless the upper band is hit. */
  lemma DowntrendHolds(p: Period, upperBound: real, lowerBound: real, t: Thresholds)
    requires Below(p.macdHistogram, 0.0) && !IsUpperHit(p, upperBound, t)
    ensures NextTrend(p, upperBound, lowerBound, Some(Down), t) == Down
  {
  }

  /** Up has precedence: a fresh upper hit gives 'up' whatever the down condition says, ending a downtrend. */
  lemma UpperHitWins(p: Period, upperBound: real, lowerBound: real, prev: Option<Trend>, t: Thresholds)
    requires IsUpperHit(p, upperBound, t)
    ensures NextTrend(p, upperBound, lowerBound, prev, t) == Up
  {
  }

  /** An uptrend whose histogram is no longer positive ends unless the upper band is hit again. */
  lemma UptrendEndsWithMomentum(p: Period, upperBound: real, lowerBound: real, t: Thresholds)
    requires !Above(p.macdHistogram, 0.0) && !IsUpperHit(p, upperBound, t)
    ensures NextTrend(p, upperBound, lowerBound, Some(Up), t) != Up
    ensures NextTrend(p, upperBound, lowerBound, Some(Up), t) == Down <==> IsLowerHit(p, lowerBound, t)
  {
  }

  /** Without a classified previous bar (or after 'side') only a hit starts a trend. */
  lemma NoMomentumWithoutTrend(p: Period, upperBound: real, lowerBound: real, prev: Option<Trend>, t: Thresholds)
    requires prev == None || prev == Some(Side)
    ensures NextTrend(p, upperBound, lowerBound, prev, t) == Up <==> IsUpperHit(p, upperBound, t)
    ensures NextTrend(p, upperBound, lowerBound, prev, t) == Down <==>
      !IsUpperHit(p, upperBound, t) && IsLowerHit(p, lowerBound, t)
  {
  }

  /** The trends of consecutive bars, each classified against the trend of the bar before. */
  function TrendRun(bars: seq<Period>, prev: Option<Trend>, t: Thresholds): (trends: seq<Trend>)
    requires forall i :: 0 <= i < |bars| ==> bars[i].bollinger.Some?
    ensures |trends| == |bars|
    decreases |bars|
  {
    if bars == [] then []
    else
      var b := bars[0].bollinger.value;
      var trend := NextTrend(bars[0], b.upper, b.lower, prev, t);
      [trend] + TrendRun(bars[1..], Some(trend), t)
  }

  /** Bar k of a run is classified against bar k-1's trend, and the first against the trend before the run. */
  lemma {:induction false} TrendRunAt(bars: seq<Period>, prev: Option<Trend>, t: Thresholds, k: nat)
    requires forall i :: 0 <= i < |bars| ==> bars[i].bollinger.Some?
    requires k < |bars|
    ensures TrendRun(bars, prev, t)[k] ==
      NextTrend(bars[k], bars[k].bollinger.value.upper, bars[k].bollinger.value.lower,
                if k == 0 then prev else Some(TrendRun(bars, prev, t)[k - 1]), t)
    decreases k
  {
    if k > 0 {
      var first := NextTrend(bars[0], bars[0].bollinger.value.upper, bars[0].bollinger.value.lower, prev, t);
      TrendRunAt(bars[1..], Some(first), t, k - 1);
    }
  }

  /** Once up, a run of bars with positive histograms stays up throughout, without any new hit. */
  lemma {:induction false} UptrendPersists(bars: seq<Period>, t: Thresholds)
    requires forall i :: 0 <= i < |bars| ==> bars[i].bollinger.Some? && Above(bars[i].macdHistogram, 0.0)
    ensures forall i :: 0 <= i < |bars| ==> TrendRun(bars, Some(Up), t)[i] == Up
    decreases |bars|
  {
    if bars != [] {
      UptrendPersists(bars[1..], t);
    }
  }

  /** ... and raises no signal while it does. */
  lemma PersistingUptrendIsSilent(bars: seq<Period>, t: Thresholds)
    requires forall i :: 0 <= i < |bars| ==> bars[i].bollinger.Some? && Above(bars[i].macdHistogram, 0.0)
    ensures forall i :: 0 <= i < |bars| ==> SignalRun(Some(Up), TrendRun(bars, Some(Up), t))[i] == None
  {
    UptrendPersists(bars, t);
    SteadyTrendIsSilent(Up, TrendRun(bars, Some(Up), t));
  }

  /**
   * The guard of the signal block: bands, MACD, RSI, CCI, %D and ADX all set.
   * The bands are numbers here, so a zero band reads as unset as well.
   */
  predicate IsAllSet(p: Period)
  {
    p.bollinger.Some? && p.bollinger.value.upper != 0.0 && p.bollinger.value.lower != 0.0 &&
    Truthy(p.macd) && Truthy(p.rsi) && Truthy(p.cci) && Truthy(p.stochD) && Truthy(p.adx)
  }

  /** A value of exactly 0 counts as unset, so such a bar recomputes no signal. */
  lemma ZeroIsUnset(p: Period)
    requires p.macd == Some(0.0) || p.rsi == Some(0.0) || p.cci == Some(0.0) ||
             p.stochD == Some(0.0) || p.adx == Some(0.0)
    ensures !IsAllSet(p)
  {
  }

  /**
   * The band computation of this batch, on the window it actually reads,
   * resolves with a non-zero middle band or does not resolve at all.
   */
  predicate MiddleNonZero(lookback: seq<Period>, period: Period, p: TaTrendMacd.Params,
                          backend: TaTrendMacd.MarketData -> TaTrendMacd.Results)
  {
    |lookback| >= p.minPeriods ==>
      var r := backend(TaTrendMacd.MarketDataOf(TaTrendMacd.Window(lookback, period, p.minPeriods)));
      r.bbands.Resolved? ==> r.bbands.value.middle != 0.0
  }

  /**
   * The bar after `calcIndicators`: the indicator batch, then, only when it
   * reports true, the band width and the trend.
   */
  function Refreshed(lookback: seq<Period>, period: Period, o: Options,
                     backend: TaTrendMacd.MarketData -> TaTrendMacd.Results)
    : (res: (TaTrendMacd.Computed<bool>, Period))
    requires MiddleNonZero(lookback, period, o.params, backend)
    ensures res.0 == TaTrendMacd.Calculated(lookback, period, o.params, backend).0
    ensures res.0 != TaTrendMacd.Resolved(true) ==> res.1 == TaTrendMacd.Calculated(lookback, period, o.params, backend).1
    ensures res.0 == TaTrendMacd.Resolved(true) ==>
      && res.1.trend.Some?
      && res.1.bollinger.Some?
      && var b := res.1.bollinger.value;
         && b.middle != 0.0
         && b.bbw == Some(BandWidth(b.upper, b.lower, b.middle))
         && res.1.trend == Some(NextTrend(res.1, b.upper, b.lower, PrevTrend(lookback), o.thresholds))
    ensures res.0 == TaTrendMacd.Resolved(true) ==>
      var batch := TaTrendMacd.Calculated(lookback, period, o.params, backend).1;
      && batch.bollinger.Some?
      && res.1.(bollinger := batch.bollinger, trend := batch.trend) == batch
      && res.1.bollinger.value.(bbw := batch.bollinger.value.bbw) == batch.bollinger.value
  {
    var batch := TaTrendMacd.Calculated(lookback, period, o.params, backend);
    if batch.0 == TaTrendMacd.Resolved(true) then
      var b := batch.1.bollinger.value;
      var withWidth := batch.1.(bollinger := Some(b.(bbw := Some(BandWidth(b.upper, b.lower, b.middle)))));
      (batch.0, withWidth.(trend := Some(NextTrend(withWidth, b.upper, b.lower, PrevTrend(lookback), o.thresholds))))
    else batch
  }

  /**
   * After a successful batch the bands are the ones the band computation
   * returned for the window, their width is (upper - lower) / middle and the
   * trend is classified against the previous bar's; prices are untouched.
   */
  lemma RefreshedFromBackend(lookback: seq<Period>, period: Period, o: Options,
                             backend: TaTrendMacd.MarketData -> TaTrendMacd.Results)
    requires MiddleNonZero(lookback, period, o.params, backend)
    requires Refreshed(lookback, period, o, backend).0 == TaTrendMacd.Resolved(true)
    ensures |lookback| >= o.params.minPeriods
    ensures var r := backend(TaTrendMacd.MarketDataOf(TaTrendMacd.Window(lookback, period, o.params.minPeriods)));
      var q := Refreshed(lookback, period, o, backend).1;
      && TaTrendMacd.AllResolved(r)
      && q.bollinger == Some(Bollinger(r.bbands.value.upper, r.bbands.value.middle, r.bbands.value.lower,
                                       Some((r.bbands.value.upper - r.bbands.value.lower) / r.bbands.value.middle)))
      && q.trend == Some(NextTrend(q, r.bbands.value.upper, r.bbands.value.lower, PrevTrend(lookback), o.thresholds))
      && q.close == period.close && q.high == period.high && q.low == period.low && q.volume == period.volume
  {
    TaTrendMacd.CalculatedTrueIff(lookback, period, o.params, backend);
  }

  /**
   * `calculate` and `onPeriod` both run `calcIndicators` on the same bar; run
   * one after the other, the second run leaves the bar and outcome of the first.
   */
  lemma RefreshedTwiceIsOnce(lookback: seq<Period>, period: Period, o: Options,
                             backend: TaTrendMacd.MarketData -> TaTrendMacd.Results)
    requires MiddleNonZero(lookback, period, o.params, backend)
    ensures var once := Refreshed(lookback, period, o, backend);
      MiddleNonZero(lookback, once.1, o.params, backend) && Refreshed(lookback, once.1, o, backend) == once
  {
    var once := Refreshed(lookback, period, o, backend);
    TaTrendMacd.CalculatedTwiceIsOnce(lookback, period, o.params, backend);
    if |lookback| >= o.params.minPeriods {
      TaTrendMacd.PricesDecideMarketData(lookback, period, once.1, o.params.minPeriods);
    }
  }

  /** The breakout of a flat market: close 130 over bands 125/100/75 with RSI 85, CCI 150, %D 90. */
  function Breakout(): Period
  {
    NewPeriod(131.0, 99.0, 130.0, 1000.0).(
      bollinger := Some(Bollinger(125.0, 100.0, 75.0, Some(BandWidth(125.0, 75.0, 100.0)))),
      rsi := Some(85.0), cci := Some(150.0), stochD := Some(90.0))
  }

  /**
   * Under the defaults the breakout bar is 'up' whatever came before; it buys
   * only after 'down': entering 'up' from 'side' raises no signal.
   */
  lemma BreakoutScenario(prev: Option<Trend>)
    ensures NextTrend(Breakout(), 125.0, 75.0, prev, Defaults.thresholds) == Up
    ensures TrendBreakSignal(prev, Some(Up)) == if prev == Some(Down) then Some(Buy) else None
  {
    assert BandWidth(125.0, 75.0, 100.0) == 0.5;
  }

  /** The strategy state `s` as trend_macd uses it. */
  class Strategy {
    const options: Options
    var inPreroll: bool
    var lookback: seq<Period>
    var period: Period
    var signal: Option<Signal>

    constructor (options: Options, inPreroll: bool, lookback: seq<Period>, period: Period)
      ensures this.options == options && this.inPreroll == inPreroll
      ensures this.lookback == lookback && this.period == period && signal == None
    {
      this.options := options;
      this.inPreroll := inPreroll;
      this.lookback := lookback;
      this.period := period;
      signal := None;
    }

    /** `bbw`: stores the band width on the bar's bands. */
    method Bbw(upperBound: real, lowerBound: real)
      requires period.bollinger.Some? && period.bollinger.value.middle != 0.0
      modifies this`period
      ensures period.bollinger.Some?
      ensures period == old(period).(bollinger := Some(old(period).bollinger.value.(
        bbw := Some(BandWidth(upperBound, lowerBound, old(period).bollinger.value.middle)))))
    {
      var b := period.bollinger.value;
      period := period.(bollinger := Some(b.(bbw := Some((upperBound - lowerBound) / b.middle))));
    }

    /** `updateTrend`: writes exactly one of the three labels, against the previous bar's trend. */
    method UpdateTrend(upperBound: real, lowerBound: real)
      modifies this`period
      ensures period.trend.Some?
      ensures period == old(period).(trend :=
        Some(NextTrend(old(period), upperBound, lowerBound, PrevTrend(lookback), options.thresholds)))
    {
      if IsUptrendNowOrBefore(period, upperBound, PrevTrend(lookback), options.thresholds) {
        period := period.(trend := Some(Up));
      } else if IsDowntrendNowOrBefore(period, lowerBound, PrevTrend(lookback), options.thresholds) {
        period := period.(trend := Some(Down));
      } else {
        period := period.(trend := Some(Side));
      }
    }

    /** `calcIndicators`: the batch, then band width and trend when it reports true. */
    method CalcIndicators(backend: TaTrendMacd.MarketData -> TaTrendMacd.Results)
      returns (res: TaTrendMacd.Computed<bool>)
      requires MiddleNonZero(lookback, period, options.params, backend)
      modifies this`period
      ensures (res, period) == Refreshed(lookback, old(period), options, backend)
    {
      var q;
      res, q := TaTrendMacd.TaTrendMacd(lookback, period, options.params, backend);
      period := q;
      if res == TaTrendMacd.Resolved(true) {
        var upperBound := period.bollinger.value.upper;
        var lowerBound := period.bollinger.value.lower;
        Bbw(upperBound, lowerBound);
        UpdateTrend(upperBound, lowerBound);
      }
    }

    /** `calculate`: nothing during preroll; otherwise the indicators, with a failure only logged. */
    method Calculate(backend: TaTrendMacd.MarketData -> TaTrendMacd.Results)
      requires MiddleNonZero(lookback, period, options.params, backend)
      modifies this`period
      ensures inPreroll ==> period == old(period)
      ensures !inPreroll ==> period == Refreshed(lookback, old(period), options, backend).1
    {
      if inPreroll {
        return;
      }
      var _ := CalcIndicators(backend);
    }

    /**
     * `onPeriod`: outside preroll, refresh the indicators; unless that failed,
     * recompute the signal from the trend break when every field is set.
     * Otherwise the signal is left as it was.
     */
    method OnPeriod(backend: TaTrendMacd.MarketData -> TaTrendMacd.Results)
      requires MiddleNonZero(lookback, period, options.params, backend)
      modifies this`period, this`signal
      ensures inPreroll ==> period == old(period) && signal == old(signal)
      ensures !inPreroll ==> period == Refreshed(lookback, old(period), options, backend).1
      ensures (!inPreroll && Refreshed(lookback, old(period), options, backend).0 != TaTrendMacd.Rejected &&
               IsAllSet(period)) ==> signal == TrendBreakSignal(PrevTrend(lookback), period.trend)
      ensures (inPreroll || Refreshed(lookback, old(period), options, backend).0 == TaTrendMacd.Rejected ||
               !IsAllSet(period)) ==> signal == old(signal)
    {
      if inPreroll {
        return;
      }
      var res := CalcIndicators(backend);
      if res != TaTrendMacd.Rejected && IsAllSet(period) {
        signal := TrendBreakSignal(PrevTrend(lookback), period.trend);
      }
    }
  }
}
