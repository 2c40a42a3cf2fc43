/**
 * Values shared by the three Bollinger-band trend strategies and by the
 * indicator library that feeds one of them.
 *
 * The strategies work on a JavaScript object `s`; its `period` (the bar being
 * built) and the entries of `s.lookback` (finished bars, index 0 the newest)
 * are records whose indicator fields appear once some computation writes them.
 * `Period` is that record: a field nobody has written is `None`, which plays
 * the part of JavaScript's `undefined`.
 */
module Common {

  datatype Option<+T> = None | Some(value: T)

  /** The labels a strategy writes to `s.period.trend`: 'up', 'down', 'side'. */
  datatype Trend = Up | Down | Side

  /** The non-null values of `s.signal`: 'buy' and 'sell'; null is `None`. */
  datatype Signal = Buy | Sell

  /** Latest values of the three Bollinger bands, as an indicator computes them. */
  datatype Bands = Bands(upper: real, middle: real, lower: real)

  /** `s.period.bollinger`: the bands plus the band width written after them. */
  datatype Bollinger = Bollinger(upper: real, middle: real, lower: real, bbw: Option<real>)

  /** One bar with every indicator field one of the strategies may attach to it. */
  datatype Period = Period(
    high: real, low: real, close: real, volume: real,
    bollinger: Option<Bollinger>,
    rsi: Option<real>, cci: Option<real>,
    stochK: Option<real>, stochD: Option<real>,
    macd: Option<real>, macdSignal: Option<real>, macdHistogram: Option<real>,
    adx: Option<real>, obv: Option<real>, adosc: Option<real>,
    emaShort: Option<real>, emaLong: Option<real>, signalEma: Option<real>,
    trend: Option<Trend>)

  /** A bar as the feed delivers it, before any indicator is attached. */
  function NewPeriod(high: real, low: real, close: real, volume: real): Period
  {
    Period(high, low, close, volume, None, None, None, None, None, None, None, None,
           None, None, None, None, None, None, None)
  }

  /** Freshly computed bands, with no band width yet. */
  function BollingerOf(b: Bands): Bollinger
  {
    Bollinger(b.upper, b.middle, b.lower, None)
  }

  /** JavaScript `x > t`: an undefined `x` compares false. */
  predicate Above(x: Option<real>, t: real)
  {
    x.Some? && x.value > t
  }

  /** JavaScript `x < t`: an undefined `x` compares false. */
  predicate Below(x: Option<real>, t: real)
  {
    x.Some? && x.value < t
  }

  /** JavaScript truthiness of a numeric field: defined and not zero. */
  predicate Truthy(x: Option<real>)
  {
    x.Some? && x.value != 0.0
  }

  /** The trend of the previous bar, `s.lookback[0].trend`. */
  function PrevTrend(lookback: seq<Period>): (prev: Option<Trend>)
  {
    if |lookback| == 0 then None else lookback[0].trend
  }

  /**
   * What the indicator modules called by `calculate` leave in their fields of
   * `s.period` (they are not part of this model): each value is the field's
   * content after the call. A strategy ignores the modules it does not call.
   */
  datatype LibOutputs = LibOutputs(
    bollinger: Option<Bollinger>, rsi: Option<real>,
    emaShort: Option<real>, emaLong: Option<real>, signalEma: Option<real>,
    cci: Option<real>, stochK: Option<real>, stochD: Option<real>)
}
