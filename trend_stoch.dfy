/**
 * The trend_stoch strategy: the same band hits as trend_macd, but the trend
 * is decided by the current bar's hits alone (no hysteresis), the MACD is
 * derived from two EMAs here, and the trend is written only once the history
 * is longer than the band period.
 */
module TrendStoch {
  import opened Common
  import opened BandHits
  import opened TrendBreak
  import opened EmaMacd
  import TrendMacd

  datatype Options = Options(bollingerSize: int, thresholds: Thresholds)

  /** The option defaults the strategy's decisions read. */
  const Defaults: Options :=
    Options(20, Thresholds(0.0, 0.0, 0.10, 70.0, 30.0, 100.0, -100.0, 70.0, 30.0))

  /** The trend `updateTrend` writes: 'up' on an upper hit, else 'down' on a lower hit, else 'side'. */
  function StochTrend(p: Period, upperBound: real, lowerBound: real, t: Thresholds): (trend: Trend)
  {
    if IsUpperHit(p, upperBound, t) then Up
    else if IsLowerHit(p, lowerBound, t) then Down
    else Side
  }

  /** No hysteresis: the label is decided by the bar's own hits, the upper one first. */
  lemma StochTrendCases(p: Period, upperBound: real, lowerBound: real, t: Thresholds)
    ensures StochTrend(p, upperBound, lowerBound, t) == Up <==> IsUpperHit(p, upperBound, t)
    ensures StochTrend(p, upperBound, lowerBound, t) == Down <==>
      !IsUpperHit(p, upperBound, t) && IsLowerHit(p, lowerBound, t)
    ensures StochTrend(p, upperBound, lowerBound, t) == Side <==>
      !IsUpperHit(p, upperBound, t) && !IsLowerHit(p, lowerBound, t)
  {
  }

  /**
   * trend_stoch is trend_macd's classifier without a history, and the two
   * disagree only where trend_macd's momentum continuation applies.
   */
  lemma AgreesWithMacdClassifier(p: Period, upperBound: real, lowerBound: real, prev: Option<Trend>, t: Thresholds)
    ensures StochTrend(p, upperBound, lowerBound, t) == TrendMacd.NextTrend(p, upperBound, lowerBound, None, t)
    ensures StochTrend(p, upperBound, lowerBound, t) == Up ==>
      TrendMacd.NextTrend(p, upperBound, lowerBound, prev, t) == Up
    ensures StochTrend(p, upperBound, lowerBound, t) != TrendMacd.NextTrend(p, upperBound, lowerBound, prev, t) ==>
      (prev == Some(Up) && Above(p.macdHistogram, 0.0)) || (prev == Some(Down) && Below(p.macdHistogram, 0.0))
  {
  }

  /**
   * The guard of the signal block: bands, MACD, RSI, CCI and %D set. The bands
   * are arrays here, present or absent, so only the numbers can read as 0.
   */
  predicate IsAllSet(p: Period)
  {
    p.bollinger.Some? && Truthy(p.macd) && Truthy(p.rsi) && Truthy(p.cci) && Truthy(p.stochD)
  }

  /** A value of exactly 0 for MACD, RSI, CCI or %D counts as unset. */
  lemma ZeroIsUnset(p: Period)
    requires p.macd == Some(0.0) || p.rsi == Some(0.0) || p.cci == Some(0.0) || p.stochD == Some(0.0)
    ensures !IsAllSet(p)
  {
  }

  /** `s.period` after the indicator modules and the MACD step of `calculate`. */
  function AfterIndicators(p: Period, lib: LibOutputs): (q: Period)
    ensures q.bollinger == lib.bollinger && q.rsi == lib.rsi && q.cci == lib.cci
    ensures q.stochK == lib.stochK && q.stochD == lib.stochD
    ensures q.emaShort == lib.emaShort && q.emaLong == lib.emaLong
    ensures q.high == p.high && q.low == p.low && q.close == p.close && q.volume == p.volume
    ensures q.trend == p.trend && q.adx == p.adx && q.obv == p.obv && q.adosc == p.adosc
    ensures Truthy(lib.emaShort) && Truthy(lib.emaLong) ==> q.macd == Some(lib.emaShort.value - lib.emaLong.value)
    ensures Truthy(lib.emaShort) && Truthy(lib.emaLong) ==> q.signalEma == lib.signalEma
    ensures Truthy(lib.emaShort) && Truthy(lib.emaLong) && Truthy(lib.signalEma) ==>
      q.macdHistogram == Some(lib.emaShort.value - lib.emaLong.value - lib.signalEma.value)
    ensures !Truthy(lib.signalEma) ==> q.macdHistogram == p.macdHistogram
    ensures !(Truthy(lib.emaShort) && Truthy(lib.emaLong)) ==>
      q.macd == p.macd && q.signalEma == p.signalEma && q.macdHistogram == p.macdHistogram
    ensures q.macdSignal == p.macdSignal
  {
    var withEmas := p.(bollinger := lib.bollinger, rsi := lib.rsi, emaShort := lib.emaShort, emaLong := lib.emaLong);
    DeriveMacd(withEmas, lib.signalEma).(cci := lib.cci, stochK := lib.stochK, stochD := lib.stochD)
  }

  /**
   * `s.period` after `calculate`: band width and trend are written only when
   * the history is longer than the band period; otherwise the trend is left alone.
   */
  function Calculated(lookback: seq<Period>, p: Period, lib: LibOutputs, o: Options): (q: Period)
    requires |lookback| > o.bollingerSize ==> BandsReady(AfterIndicators(p, lib))
    ensures |lookback| <= o.bollingerSize ==> q == AfterIndicators(p, lib) && q.trend == p.trend
    ensures |lookback| > o.bollingerSize ==>
      && q.bollinger.Some?
      && var b := q.bollinger.value;
         && b.middle != 0.0
         && b.bbw == Some(BandWidth(b.upper, b.lower, b.middle))
         && q.trend == Some(StochTrend(q, b.upper, b.lower, o.thresholds))
    ensures |lookback| > o.bollingerSize ==>
      var a := AfterIndicators(p, lib);
      && q.(bollinger := a.bollinger, trend := a.trend) == a
      && q.bollinger.value.(bbw := a.bollinger.value.bbw) == a.bollinger.value
  {
    var q := AfterIndicators(p, lib);
    if |lookback| > o.bollingerSize then
      var b := q.bollinger.value;
      var withWidth := q.(bollinger := Some(b.(bbw := Some(BandWidth(b.upper, b.lower, b.middle)))));
      withWidth.(trend := Some(StochTrend(withWidth, b.upper, b.lower, o.thresholds)))
    else q
  }

  /**
   * Above the history gate the bar carries the modules' bands with their
   * width, their RSI, CCI and %D, and a trend decided by those values alone;
   * below it the trend the bar already had.
   */
  lemma CalculatedFromModules(lookback: seq<Period>, p: Period, lib: LibOutputs, o: Options)
    requires |lookback| > o.bollingerSize ==> BandsReady(AfterIndicators(p, lib))
    ensures var q := Calculated(lookback, p, lib, o);
      && q.rsi == lib.rsi && q.cci == lib.cci && q.stochD == lib.stochD
      && (|lookback| > o.bollingerSize ==>
            var b := lib.bollinger.value;
            && q.bollinger == Some(b.(bbw := Some((b.upper - b.lower) / b.middle)))
            && q.trend == Some(StochTrend(q, b.upper, b.lower, o.thresholds)))
      && (|lookback| <= o.bollingerSize ==> q.trend == p.trend)
  {
  }

  /** The strategy state `s` as trend_stoch uses it. */
  class Strategy {
    const options: Options
    var inPreroll: bool
    var lookback: seq<Period>
    var period: Period
    var signal: Option<Signal>

    constructor (options: Options, inPreroll: bool, lookback: seq<Period>, period: Period)
      ensures this.options == options && this.inPreroll == inPreroll
      ensures this.lookback == lookback && this.period == period && signal == None
    {
      this.options := options;
      this.inPreroll := inPreroll;
      this.lookback := lookback;
      this.period := period;
      signal := None;
    }

    /** `macd`: the two EMAs, then MACD and, with a signal EMA, the histogram. */
    method Macd(emaShort: Option<real>, emaLong: Option<real>, signalEma: Option<real>)
      modifies this`period
      ensures period == DeriveMacd(old(period).(emaShort := emaShort, emaLong := emaLong), signalEma)
    {
      period := period.(emaShort := emaShort, emaLong := emaLong);
      if Truthy(period.emaShort) && Truthy(period.emaLong) {
        period := period.(macd := Some(period.emaShort.value - period.emaLong.value));
        period := period.(signalEma := signalEma);
        if Truthy(period.signalEma) {
          period := period.(macdHistogram := Some(period.macd.value - period.signalEma.value));
        }
      }
    }

    /** `bbw`: stores the band width on the bar's bands. */
    method Bbw(upperBound: real, lowerBound: real)
      requires BandsReady(period)
      modifies this`period
      ensures period == old(period).(bollinger := Some(old(period).bollinger.value.(
        bbw := Some(BandWidth(upperBound, lowerBound, old(period).bollinger.value.middle)))))
    {
      var b := period.bollinger.value;
      period := period.(bollinger := Some(b.(bbw := Some((upperBound - lowerBound) / b.middle))));
    }

    /** `updateTrend`: writes exactly one label, from the bar's hits alone. */
    method UpdateTrend(upperBound: real, lowerBound: real)
      modifies this`period
      ensures period == old(period).(trend := Some(StochTrend(old(period), upperBound, lowerBound, options.thresholds)))
    {
      if IsUpperHit(period, upperBound, options.thresholds) {
        period := period.(trend := Some(Up));
      } else if IsLowerHit(period, lowerBound, options.thresholds) {
        period := period.(trend := Some(Down));
      } else {
        period := period.(trend := Some(Side));
      }
    }

    /** `calculate`: the indicators, then band width and trend behind the history-length gate. */
    method Calculate(lib: LibOutputs)
      requires |lookback| > options.bollingerSize ==> BandsReady(AfterIndicators(period, lib))
      modifies this`period
      ensures period == Calculated(lookback, old(period), lib, options)
    {
      period := period.(bollinger := lib.bollinger, rsi := lib.rsi);
      Macd(lib.emaShort, lib.emaLong, lib.signalEma);
      period := period.(cci := lib.cci, stochK := lib.stochK, stochD := lib.stochD);
      if |lookback| > options.bollingerSize {
        var upperBound := period.bollinger.value.upper;
        var lowerBound := period.bollinger.value.lower;
        Bbw(upperBound, lowerBound);
        UpdateTrend(upperBound, lowerBound);
      }
    }

    /** `onPeriod`: outside preroll, with every field set, the signal follows the trend break. */
    method OnPeriod()
      modifies this`signal
      ensures (!inPreroll && IsAllSet(period)) ==> signal == TrendBreakSignal(PrevTrend(lookback), period.trend)
      ensures (inPreroll || !IsAllSet(period)) ==> signal == old(signal)
    {
      if inPreroll {
        return;
      }
      if IsAllSet(period) {
        signal := TrendBreakSignal(PrevTrend(lookback), period.trend);
      }
    }
  }
}
