/**
 * The indicator batch of the trend_macd strategy: after a history gate it
 * lays out the newest bars oldest first, hands the same window to eight
 * TA-Lib computations and attaches each result to the current bar.
 *
 * TA-Lib itself is not part of this model: `backend` stands for the eight
 * calls, as a function of the window they all receive.
 */
module TaTrendMacd {
  import opened Common

  /** The periods and constants `ta_trend_macd` forwards to TA-Lib. */
  datatype Params = Params(
    minPeriods: nat,
    bollingerSize: int, bollingerTime: real,
    rsiPeriods: int,
    emaShortPeriod: int, emaLongPeriod: int, signalPeriod: int,
    cciPeriods: int, cciConstant: real,
    stochK: int, stochD: int,
    adxPeriods: int,
    chaikinFast: int, chaikinSlow: int)

  /** The four price/volume series handed to TA-Lib, oldest first. */
  datatype MarketData = MarketData(high: seq<real>, low: seq<real>, close: seq<real>, volume: seq<real>)

  /** Outcome of one TA-Lib call: its promise resolves with a value or rejects. */
  datatype Computed<+T> = Resolved(value: T) | Rejected

  datatype Stoch = Stoch(k: real, d: real)

  datatype MacdLines = MacdLines(macd: real, signal: real, histogram: real)

  /** The outcomes of the eight calls of one batch. */
  datatype Results = Results(
    bbands: Computed<Bands>, rsi: Computed<real>, cci: Computed<real>,
    stoch: Computed<Stoch>, macd: Computed<MacdLines>,
    adx: Computed<real>, obv: Computed<real>, adosc: Computed<real>)

  /** The eight TA-Lib computations of a batch. */
  datatype Indicator = BBands | Rsi | Cci | StochF | Macd | Adx | Obv | Adosc

  predicate AllResolved(r: Results)
  {
    r.bbands.Resolved? && r.rsi.Resolved? && r.cci.Resolved? && r.stoch.Resolved? &&
    r.macd.Resolved? && r.adx.Resolved? && r.obv.Resolved? && r.adosc.Resolved?
  }

  /** A newest-first list of bars, reordered oldest first. */
  function Chronological(newestFirst: seq<Period>): (w: seq<Period>)
    ensures |w| == |newestFirst|
  {
    if newestFirst == [] then [] else Chronological(newestFirst[1..]) + [newestFirst[0]]
  }

  lemma {:induction false} ChronologicalAt(newestFirst: seq<Period>, j: nat)
    requires j < |newestFirst|
    ensures Chronological(newestFirst)[j] == newestFirst[|newestFirst| - 1 - j]
  {
    if j < |newestFirst| - 1 {
      ChronologicalAt(newestFirst[1..], j);
    }
  }

  /** The bars of a batch: the newest `minPeriods` of `lookback`, oldest first, then the current bar. */
  function Window(lookback: seq<Period>, current: Period, minPeriods: nat): (w: seq<Period>)
    requires minPeriods <= |lookback|
    ensures |w| == minPeriods + 1 && w[minPeriods] == current
  {
    Chronological(lookback[..minPeriods]) + [current]
  }

  /** Bar `j` of the window is `lookback[minPeriods - 1 - j]`; the last is the current bar. */
  lemma WindowAt(lookback: seq<Period>, current: Period, minPeriods: nat, j: nat)
    requires minPeriods <= |lookback| && j <= minPeriods
    ensures |Window(lookback, current, minPeriods)| == minPeriods + 1
    ensures Window(lookback, current, minPeriods)[j] ==
      if j < minPeriods then lookback[minPeriods - 1 - j] else current
  {
    if j < minPeriods {
      ChronologicalAt(lookback[..minPeriods], j);
    }
  }

  /** The series of a window, one entry per bar in each, so that index `j` is bar `j` everywhere. */
  function MarketDataOf(w: seq<Period>): (md: MarketData)
    ensures |md.high| == |md.low| == |md.close| == |md.volume| == |w|
  {
    MarketData(
      seq(|w|, j requires 0 <= j < |w| => w[j].high),
      seq(|w|, j requires 0 <= j < |w| => w[j].low),
      seq(|w|, j requires 0 <= j < |w| => w[j].close),
      seq(|w|, j requires 0 <= j < |w| => w[j].volume))
  }

  /**
   * The series built by the countdown loop of `ta_trend_macd`: four
   * index-aligned series of `minPeriods + 1` values, oldest first, ending with
   * the current bar.
   */
  method BuildMarketData(lookback: seq<Period>, current: Period, minPeriods: nat)
    returns (md: MarketData)
    requires minPeriods <= |lookback|
    ensures |md.high| == |md.low| == |md.close| == |md.volume| == minPeriods + 1
    ensures forall j :: 0 <= j < minPeriods ==>
      md.high[j] == lookback[minPeriods - 1 - j].high &&
      md.low[j] == lookback[minPeriods - 1 - j].low &&
      md.close[j] == lookback[minPeriods - 1 - j].close &&
      md.volume[j] == lookback[minPeriods - 1 - j].volume
    ensures md.high[minPeriods] == current.high && md.low[minPeriods] == current.low
    ensures md.close[minPeriods] == current.close && md.volume[minPeriods] == current.volume
    ensures md == MarketDataOf(Window(lookback, current, minPeriods))
  {
    var high, low, close, volume := [], [], [], [];
    var i := minPeriods;
    while i > 0
      invariant 0 <= i <= minPeriods
      invariant |high| == |low| == |close| == |volume| == minPeriods - i
      invariant forall j :: 0 <= j < minPeriods - i ==>
        high[j] == lookback[minPeriods - 1 - j].high &&
        low[j] == lookback[minPeriods - 1 - j].low &&
        close[j] == lookback[minPeriods - 1 - j].close &&
        volume[j] == lookback[minPeriods - 1 - j].volume
    {
      i := i - 1;
      high := high + [lookback[i].high];
      low := low + [lookback[i].low];
      close := close + [lookback[i].close];
      volume := volume + [lookback[i].volume];
    }
    high := high + [current.high];
    low := low + [current.low];
    close := close + [current.close];
    volume := volume + [current.volume];
    md := MarketData(high, low, close, volume);

    ghost var w := Window(lookback, current, minPeriods);
    forall j | 0 <= j <= minPeriods
      ensures |w| == minPeriods + 1
      ensures w[j] == if j < minPeriods then lookback[minPeriods - 1 - j] else current
    {
      WindowAt(lookback, current, minPeriods, j);
    }
    assert md.high == MarketDataOf(w).high;
    assert md.low == MarketDataOf(w).low;
    assert md.close == MarketDataOf(w).close;
    assert md.volume == MarketDataOf(w).volume;
  }

  /** Bars older than `lookback[minPeriods - 1]` never reach the window. */
  lemma OlderBarsUnread(lookback1: seq<Period>, lookback2: seq<Period>, current: Period, minPeriods: nat)
    requires minPeriods <= |lookback1| && minPeriods <= |lookback2|
    requires lookback1[..minPeriods] == lookback2[..minPeriods]
    ensures Window(lookback1, current, minPeriods) == Window(lookback2, current, minPeriods)
  {
  }

  /** How many bars a period-based computation spans; `None` for OBV and ADOSC, which take the whole series. */
  function Span(ind: Indicator, p: Params): (span: Option<int>)
    ensures span.None? <==> ind == Obv || ind == Adosc
  {
    match ind
    case BBands => Some(p.bollingerSize)
    case Rsi => Some(p.rsiPeriods)
    case Cci => Some(p.cciPeriods)
    case StochF => Some(p.stochK + p.stochD)
    case Macd => Some(p.emaLongPeriod + p.signalPeriod)
    case Adx => Some(p.adxPeriods)
    case Obv => None
    case Adosc => None
  }

  /** The `(startIdx, endIdx)` a TA-Lib call of the batch asks for, over series of length `len`. */
  function RequestedRange(ind: Indicator, len: int, p: Params): (range: (int, int))
    ensures range.1 == len - 1
  {
    match ind
    case BBands => (len - p.bollingerSize, len - 1)
    case Rsi => (len - p.rsiPeriods, len - 1)
    case Adx => (len - p.adxPeriods, len - 1)
    case Cci => (len - p.cciPeriods, len - 1)
    case StochF => (len - (p.stochK + p.stochD), len - 1)
    case Macd => (len - (p.emaLongPeriod + p.signalPeriod), len - 1)
    case Obv => (0, len - 1)
    case Adosc => (0, len - 1)
  }

  /**
   * Every computation of a batch ends at the current bar; a period-based one
   * covers exactly its span of bars, the whole-series ones start at the oldest.
   */
  lemma RequestEndsAtCurrentBar(lookback: seq<Period>, current: Period, p: Params, ind: Indicator)
    requires p.minPeriods <= |lookback|
    ensures var md := MarketDataOf(Window(lookback, current, p.minPeriods));
      var range := RequestedRange(ind, |md.close|, p);
      range.1 == p.minPeriods && md.close[range.1] == current.close &&
      md.high[range.1] == current.high && md.low[range.1] == current.low &&
      md.volume[range.1] == current.volume &&
      (Span(ind, p).Some? ==> range.1 - range.0 + 1 == Span(ind, p).value) &&
      (Span(ind, p).None? ==> range.0 == 0)
  {
    WindowAt(lookback, current, p.minPeriods, p.minPeriods);
  }

  /** A field after one `.then`: the resolved value, or what the field held before. */
  function Settle<T>(c: Computed<T>, current: Option<T>): Option<T>
  {
    if c.Resolved? then Some(c.value) else current
  }

  /**
   * `s.period` once every call of the batch has settled: each `.then` writes
   * its own result when it resolves, so every resolved result is written and
   * a rejected one leaves its field as it was (there is no all-or-nothing commit).
   */
  function Assign(period: Period, r: Results): (q: Period)
    ensures q.high == period.high && q.low == period.low && q.close == period.close && q.volume == period.volume
    ensures q.emaShort == period.emaShort && q.emaLong == period.emaLong && q.signalEma == period.signalEma
    ensures q.trend == period.trend
    ensures r.bbands.Resolved? ==> q.bollinger == Some(BollingerOf(r.bbands.value))
    ensures !r.bbands.Resolved? ==> q.bollinger == period.bollinger
    ensures r.rsi.Resolved? ==> q.rsi == Some(r.rsi.value)
    ensures !r.rsi.Resolved? ==> q.rsi == period.rsi
    ensures r.cci.Resolved? ==> q.cci == Some(r.cci.value)
    ensures !r.cci.Resolved? ==> q.cci == period.cci
    ensures r.stoch.Resolved? ==> q.stochK == Some(r.stoch.value.k) && q.stochD == Some(r.stoch.value.d)
    ensures !r.stoch.Resolved? ==> q.stochK == period.stochK && q.stochD == period.stochD
    ensures r.macd.Resolved? ==>
      && q.macd == Some(r.macd.value.macd)
      && q.macdSignal == Some(r.macd.value.signal)
      && q.macdHistogram == Some(r.macd.value.histogram)
    ensures !r.macd.Resolved? ==>
      q.macd == period.macd && q.macdSignal == period.macdSignal && q.macdHistogram == period.macdHistogram
    ensures r.adx.Resolved? ==> q.adx == Some(r.adx.value)
    ensures !r.adx.Resolved? ==> q.adx == period.adx
    ensures r.obv.Resolved? ==> q.obv == Some(r.obv.value)
    ensures !r.obv.Resolved? ==> q.obv == period.obv
    ensures r.adosc.Resolved? ==> q.adosc == Some(r.adosc.value)
    ensures !r.adosc.Resolved? ==> q.adosc == period.adosc
  {
    var bollinger := if r.bbands.Resolved? then Some(BollingerOf(r.bbands.value)) else period.bollinger;
    var rsi := Settle(r.rsi, period.rsi);
    var cci := Settle(r.cci, period.cci);
    var stochK := if r.stoch.Resolved? then Some(r.stoch.value.k) else period.stochK;
    var stochD := if r.stoch.Resolved? then Some(r.stoch.value.d) else period.stochD;
    var macd := if r.macd.Resolved? then Some(r.macd.value.macd) else period.macd;
    var macdSignal := if r.macd.Resolved? then Some(r.macd.value.signal) else period.macdSignal;
    var macdHistogram := if r.macd.Resolved? then Some(r.macd.value.histogram) else period.macdHistogram;
    var adx := Settle(r.adx, period.adx);
    var obv := Settle(r.obv, period.obv);
    var adosc := Settle(r.adosc, period.adosc);
    Period(period.high, period.low, period.close, period.volume, bollinger, rsi, cci, stochK, stochD,
           macd, macdSignal, macdHistogram, adx, obv, adosc,
           period.emaShort, period.emaLong, period.signalEma, period.trend)
  }

  /** The eight indicator fields of a bar are all present, the bands without a width yet. */
  predicate AllAttached(q: Period)
  {
    q.bollinger.Some? && q.bollinger.value.bbw.None? && q.rsi.Some? && q.cci.Some? &&
    q.stochK.Some? && q.stochD.Some? && q.macd.Some? && q.macdSignal.Some? &&
    q.macdHistogram.Some? && q.adx.Some? && q.obv.Some? && q.adosc.Some?
  }

  /**
   * The outcome of `ta_trend_macd` and the bar it leaves behind: `false` with
   * nothing written while the history is short, `true` once all eight results
   * are attached, and a rejection when any computation fails.
   */
  function Calculated(lookback: seq<Period>, period: Period, p: Params, backend: MarketData -> Results)
    : (res: (Computed<bool>, Period))
    ensures |lookback| < p.minPeriods ==> res == (Resolved(false), period)
    ensures |lookback| >= p.minPeriods ==> res.0 != Resolved(false)
    ensures res.0 == Resolved(true) ==> AllAttached(res.1)
    ensures res.1.high == period.high && res.1.low == period.low &&
            res.1.close == period.close && res.1.volume == period.volume &&
            res.1.trend == period.trend
  {
    if |lookback| < p.minPeriods then (Resolved(false), period)
    else
      var r := backend(MarketDataOf(Window(lookback, period, p.minPeriods)));
      (if AllResolved(r) then Resolved(true) else Rejected, Assign(period, r))
  }

  /** A batch is `true` exactly when the history is long enough and all eight calls resolve. */
  lemma CalculatedTrueIff(lookback: seq<Period>, period: Period, p: Params, backend: MarketData -> Results)
    ensures Calculated(lookback, period, p, backend).0 == Resolved(true) <==>
      |lookback| >= p.minPeriods &&
      AllResolved(backend(MarketDataOf(Window(lookback, period, p.minPeriods))))
  {
  }

  /** The series read only the prices and volume of the window's bars, never their indicator fields. */
  lemma PricesDecideMarketData(lookback: seq<Period>, current: Period, other: Period, minPeriods: nat)
    requires minPeriods <= |lookback|
    requires other.high == current.high && other.low == current.low
    requires other.close == current.close && other.volume == current.volume
    ensures MarketDataOf(Window(lookback, other, minPeriods)) == MarketDataOf(Window(lookback, current, minPeriods))
  {
  }

  /**
   * A second batch on the bar the first one left behind reads the same window,
   * gets the same results and writes the same values: the batch is idempotent.
   */
  lemma CalculatedTwiceIsOnce(lookback: seq<Period>, period: Period, p: Params, backend: MarketData -> Results)
    ensures var once := Calculated(lookback, period, p, backend);
      Calculated(lookback, once.1, p, backend) == once
  {
    var once := Calculated(lookback, period, p, backend);
    if |lookback| >= p.minPeriods {
      PricesDecideMarketData(lookback, period, once.1, p.minPeriods);
    }
  }

  /** `ta_trend_macd`: the history gate, the window loop and the fan-in of the eight results. */
  method TaTrendMacd(lookback: seq<Period>, period: Period, p: Params, backend: MarketData -> Results)
    returns (res: Computed<bool>, q: Period)
    ensures |lookback| < p.minPeriods ==> res == Resolved(false) && q == period
    ensures |lookback| >= p.minPeriods ==>
      var r := backend(MarketDataOf(Window(lookback, period, p.minPeriods)));
      q == Assign(period, r) && (res == Resolved(true) <==> AllResolved(r)) && res != Resolved(false)
    ensures (res, q) == Calculated(lookback, period, p, backend)
  {
    if |lookback| < p.minPeriods {
      return Resolved(false), period;
    }
    var md := BuildMarketData(lookback, period, p.minPeriods);
    var r := backend(md);
    q := period;
    if r.bbands.Resolved? { q := q.(bollinger := Some(BollingerOf(r.bbands.value))); }
    if r.rsi.Resolved? { q := q.(rsi := Some(r.rsi.value)); }
    if r.cci.Resolved? { q := q.(cci := Some(r.cci.value)); }
    if r.stoch.Resolved? { q := q.(stochK := Some(r.stoch.value.k), stochD := Some(r.stoch.value.d)); }
    if r.macd.Resolved? {
      q := q.(macd := Some(r.macd.value.macd), macdSignal := Some(r.macd.value.signal),
              macdHistogram := Some(r.macd.value.histogram));
    }
    if r.adx.Resolved? { q := q.(adx := Some(r.adx.value)); }
    if r.obv.Resolved? { q := q.(obv := Some(r.obv.value)); }
    if r.adosc.Resolved? { q := q.(adosc := Some(r.adosc.value)); }
    res := if AllResolved(r) then Resolved(true) else Rejected;
  }
}
