/**
 * The trend_bollinger strategy: a bar that touches a band (with RSI
 * confirming) is remembered; the first bar back inside the bands reports a
 * trend if its close moved back from the touching bar's close. Narrow bands
 * suppress the signal but not the remembered state.
 */
module TrendBollinger {
  import opened Common
  import opened BandHits
  import opened EmaMacd

  datatype Options = Options(
    upperBoundPct: real, lowerBoundPct: real, widthThreshold: real,
    rsiUpper: real, rsiLower: real)

  /** The option defaults the strategy's decisions read. */
  const Defaults: Options := Options(0.0, 0.0, 0.07, 70.0, 30.0)

  /** `s.last_hit_bollinger`: 'upper', 'lower' or 'middle'. */
  datatype Hit = Upper | Lower | Middle

  predicate IsRSIUpper(p: Period, o: Options)
  {
    Above(p.rsi, o.rsiUpper)
  }

  predicate IsRSILower(p: Period, o: Options)
  {
    Below(p.rsi, o.rsiLower)
  }

  /** The bar touches the upper band with RSI above its level. */
  predicate UpperTouch(p: Period, upperBound: real, o: Options)
  {
    IsUpper(p.close, upperBound, o.upperBoundPct) && IsRSIUpper(p, o)
  }

  /** The bar touches the lower band with RSI below its level. */
  predicate LowerTouch(p: Period, lowerBound: real, o: Options)
  {
    IsLower(p.close, lowerBound, o.lowerBoundPct) && IsRSILower(p, o)
  }

  /**
   * `inBounds`: whether the bar stays inside the bands, and the last hit it
   * leaves; the upper touch is tested first.
   */
  function CheckBounds(p: Period, upperBound: real, lowerBound: real, o: Options, lastHit: Option<Hit>)
    : (r: (bool, Option<Hit>))
    ensures r.0 <==> !UpperTouch(p, upperBound, o) && !LowerTouch(p, lowerBound, o)
    ensures UpperTouch(p, upperBound, o) ==> r.1 == Some(Upper)
    ensures !UpperTouch(p, upperBound, o) && LowerTouch(p, lowerBound, o) ==> r.1 == Some(Lower)
    ensures r.0 ==> r.1 == lastHit
  {
    if UpperTouch(p, upperBound, o) then (false, Some(Upper))
    else if LowerTouch(p, lowerBound, o) then (false, Some(Lower))
    else (true, lastHit)
  }

  /** `filteredByBBW`: bands strictly narrower than the threshold. */
  predicate FilteredByBBW(bbw: real, o: Options)
  {
    bbw < o.widthThreshold
  }

  /** Whether a bar has bands and stays inside them. */
  predicate InsideBands(p: Period, o: Options)
  {
    p.bollinger.Some? && CheckBounds(p, p.bollinger.value.upper, p.bollinger.value.lower, o, None).0
  }

  /** What the strategy carries from bar to bar: `last_hit_bollinger` and `last_hit_close`. */
  datatype Memory = Memory(lastHit: Option<Hit>, lastClose: Option<real>)

  /** The result of processing one bar: the new memory, the trend found and `s.signal`. */
  datatype Outcome = Outcome(memory: Memory, trend: Option<Trend>, signal: Option<Signal>)

  /** One bar with bands through `onPeriod`. */
  function Step(m: Memory, p: Period, o: Options): (out: Outcome)
    requires BandsReady(p)
    ensures out.memory.lastClose == Some(p.close)
    ensures InsideBands(p, o) ==> out.memory.lastHit == Some(Middle)
    ensures !InsideBands(p, o) ==>
      out.memory.lastHit == (if UpperTouch(p, p.bollinger.value.upper, o) then Some(Upper) else Some(Lower))
    ensures out.trend == Some(Down) <==>
      InsideBands(p, o) && m.lastHit == Some(Upper) && m.lastClose.Some? && p.close < m.lastClose.value
    ensures out.trend == Some(Up) <==>
      InsideBands(p, o) && m.lastHit == Some(Lower) && m.lastClose.Some? && p.close > m.lastClose.value
    ensures out.trend != Some(Side)
    ensures var b := p.bollinger.value;
      FilteredByBBW(BandWidth(b.upper, b.lower, b.middle), o) ==> out.signal == None
    ensures var b := p.bollinger.value;
      !FilteredByBBW(BandWidth(b.upper, b.lower, b.middle), o) ==>
        (out.signal == Some(Sell) <==> out.trend == Some(Down)) &&
        (out.signal == Some(Buy) <==> out.trend == Some(Up))
  {
    var b := p.bollinger.value;
    var bbw := BandWidth(b.upper, b.lower, b.middle);
    var (inBounds, hit) := CheckBounds(p, b.upper, b.lower, o, m.lastHit);
    var trend :=
      if !inBounds then None
      else if hit == Some(Upper) && m.lastClose.Some? && p.close < m.lastClose.value then Some(Down)
      else if hit == Some(Lower) && m.lastClose.Some? && p.close > m.lastClose.value then Some(Up)
      else None;
    var signal :=
      if FilteredByBBW(bbw, o) then None
      else if trend == Some(Down) then Some(Sell)
      else if trend == Some(Up) then Some(Buy)
      else None;
    Outcome(Memory(if inBounds then Some(Middle) else hit, Some(p.close)), trend, signal)
  }

  /** The width filter gates the signal only: memory and trend do not depend on the threshold. */
  lemma FilterLeavesState(m: Memory, p: Period, o: Options, threshold: real)
    requires BandsReady(p)
    ensures Step(m, p, o.(widthThreshold := threshold)).memory == Step(m, p, o).memory
    ensures Step(m, p, o.(widthThreshold := threshold)).trend == Step(m, p, o).trend
  {
  }

  /** Band width equal to the threshold is not filtered. */
  lemma ThresholdWidthPasses(m: Memory, p: Period, o: Options)
    requires BandsReady(p)
    requires BandWidth(p.bollinger.value.upper, p.bollinger.value.lower, p.bollinger.value.middle) == o.widthThreshold
    ensures Step(m, p, o).trend == Some(Down) ==> Step(m, p, o).signal == Some(Sell)
    ensures Step(m, p, o).trend == Some(Up) ==> Step(m, p, o).signal == Some(Buy)
  {
  }

  /** The outcomes of consecutive bars with bands, each starting from the memory the previous left. */
  function Run(m: Memory, bars: seq<Period>, o: Options): (outs: seq<Outcome>)
    requires forall i :: 0 <= i < |bars| ==> BandsReady(bars[i])
    ensures |outs| == |bars|
    decreases |bars|
  {
    if bars == [] then []
    else
      var out := Step(m, bars[0], o);
      [out] + Run(out.memory, bars[1..], o)
  }

  /** Bar `j` of a run starts from the memory bar `j - 1` left. */
  lemma {:induction false} RunAt(m: Memory, bars: seq<Period>, o: Options, j: nat)
    requires forall i :: 0 <= i < |bars| ==> BandsReady(bars[i])
    requires 0 < j < |bars|
    ensures Run(m, bars, o)[j] == Step(Run(m, bars, o)[j - 1].memory, bars[j], o)
    decreases j
  {
    var out := Step(m, bars[0], o);
    assert Run(m, bars, o) == [out] + Run(out.memory, bars[1..], o);
    if j > 1 {
      RunAt(out.memory, bars[1..], o, j - 1);
    }
  }

  /** Every outcome of a run is one `Step` from some memory. */
  lemma RunStep(m: Memory, bars: seq<Period>, o: Options, j: nat)
    requires forall i :: 0 <= i < |bars| ==> BandsReady(bars[i])
    requires j < |bars|
    ensures exists before :: Run(m, bars, o)[j] == Step(before, bars[j], o)
  {
    if j == 0 {
      assert Run(m, bars, o)[0] == Step(m, bars[0], o);
    } else {
      RunAt(m, bars, o, j);
    }
  }

  /**
   * Within a run, a 'down' trend is reported only on the first bar back inside
   * the bands right after an upper touch, with a close below that touch's close.
   */
  lemma DownFollowsUpperTouch(m: Memory, bars: seq<Period>, o: Options, j: nat)
    requires forall i :: 0 <= i < |bars| ==> BandsReady(bars[i])
    requires 0 < j < |bars|
    requires Run(m, bars, o)[j].trend == Some(Down)
    ensures InsideBands(bars[j], o) && !InsideBands(bars[j - 1], o)
    ensures UpperTouch(bars[j - 1], bars[j - 1].bollinger.value.upper, o)
    ensures bars[j].close < bars[j - 1].close
  {
    RunAt(m, bars, o, j);
    RunStep(m, bars, o, j - 1);
  }

  /** ... and an 'up' trend only right after a lower touch (and no upper one), with a higher close. */
  lemma UpFollowsLowerTouch(m: Memory, bars: seq<Period>, o: Options, j: nat)
    requires forall i :: 0 <= i < |bars| ==> BandsReady(bars[i])
    requires 0 < j < |bars|
    requires Run(m, bars, o)[j].trend == Some(Up)
    ensures InsideBands(bars[j], o) && !InsideBands(bars[j - 1], o)
    ensures !UpperTouch(bars[j - 1], bars[j - 1].bollinger.value.upper, o)
    ensures LowerTouch(bars[j - 1], bars[j - 1].bollinger.value.lower, o)
    ensures bars[j].close > bars[j - 1].close
  {
    RunAt(m, bars, o, j);
    RunStep(m, bars, o, j - 1);
  }

  /** One trend per band excursion: after a bar inside the bands, the next bar reports no trend. */
  lemma OneTrendPerExcursion(m: Memory, bars: seq<Period>, o: Options, j: nat)
    requires forall i :: 0 <= i < |bars| ==> BandsReady(bars[i])
    requires 0 < j < |bars|
    requires InsideBands(bars[j - 1], o)
    ensures Run(m, bars, o)[j].trend == None
  {
    RunAt(m, bars, o, j);
    RunStep(m, bars, o, j - 1);
  }

  /** The strategy state `s` as trend_bollinger uses it. */
  class Strategy {
    const options: Options
    var inPreroll: bool
    var period: Period
    var lastHitBollinger: Option<Hit>
    var lastHitClose: Option<real>
    var signal: Option<Signal>

    constructor (options: Options, inPreroll: bool, period: Period)
      ensures this.options == options && this.inPreroll == inPreroll && this.period == period
      ensures lastHitBollinger == None && lastHitClose == None && signal == None
    {
      this.options := options;
      this.inPreroll := inPreroll;
      this.period := period;
      lastHitBollinger := None;
      lastHitClose := None;
      signal := None;
    }

    /** `calculate`: bands and RSI from their modules, then the MACD step. */
    method Calculate(lib: LibOutputs)
      modifies this`period
      ensures period == DeriveMacd(old(period).(bollinger := lib.bollinger, rsi := lib.rsi,
                                                emaShort := lib.emaShort, emaLong := lib.emaLong), lib.signalEma)
    {
      period := period.(bollinger := lib.bollinger, rsi := lib.rsi);
      period := period.(emaShort := lib.emaShort, emaLong := lib.emaLong);
      if Truthy(period.emaShort) && Truthy(period.emaLong) {
        period := period.(macd := Some(period.emaShort.value - period.emaLong.value));
        period := period.(signalEma := lib.signalEma);
        if Truthy(period.signalEma) {
          period := period.(macdHistogram := Some(period.macd.value - period.signalEma.value));
        }
      }
    }

    /** `inBounds`: records a band touch in `last_hit_bollinger` and reports whether there was none. */
    method InBounds(upperBound: real, lowerBound: real) returns (inside: bool)
      modifies this`lastHitBollinger
      ensures (inside, lastHitBollinger) == CheckBounds(period, upperBound, lowerBound, options, old(lastHitBollinger))
    {
      if UpperTouch(period, upperBound, options) {
        lastHitBollinger := Some(Upper);
        return false;
      } else if LowerTouch(period, lowerBound, options) {
        lastHitBollinger := Some(Lower);
        return false;
      }
      return true;
    }

    /**
     * `onPeriod`: outside preroll and with bands present, one `Step` of the
     * carried state and the signal; otherwise nothing changes.
     */
    method OnPeriod()
      requires period.bollinger.Some? ==> period.bollinger.value.middle != 0.0
      modifies this`lastHitBollinger, this`lastHitClose, this`signal
      ensures (inPreroll || period.bollinger.None?) ==>
        lastHitBollinger == old(lastHitBollinger) && lastHitClose == old(lastHitClose) && signal == old(signal)
      ensures !inPreroll && period.bollinger.Some? ==>
        var out := Step(Memory(old(lastHitBollinger), old(lastHitClose)), period, options);
        Memory(lastHitBollinger, lastHitClose) == out.memory && signal == out.signal
    {
      if inPreroll {
        return;
      }
      if period.bollinger.Some? {
        var upperBound := period.bollinger.value.upper;
        var lowerBound := period.bollinger.value.lower;
        var bbw := BandWidth(upperBound, lowerBound, period.bollinger.value.middle);

        var trend: Option<Trend> := None;
        var inside := InBounds(upperBound, lowerBound);
        if inside {
          if lastHitBollinger == Some(Upper) && lastHitClose.Some? && period.close < lastHitClose.value {
            trend := Some(Down);
          } else if lastHitBollinger == Some(Lower) && lastHitClose.Some? && period.close > lastHitClose.value {
            trend := Some(Up);
          }
          lastHitBollinger := Some(Middle);
        }
        lastHitClose := Some(period.close);

        signal := None;
        if !FilteredByBBW(bbw, options) {
          if trend == Some(Down) {
            signal := Some(Sell);
          } else if trend == Some(Up) {
            signal := Some(Buy);
          }
        }
      }
    }
  }
}
