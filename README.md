# Bollinger-band trend strategies of zenbot, modelled in Dafny

This project models the per-bar decision logic of three zenbot trading
strategies and the indicator batch one of them relies on:

- **trend_macd**: a bar "hits" the upper band when its close is near the
  band and RSI, CCI, stochastic %D and the band width all confirm; it hits
  the lower band symmetrically. The trend label (`up`, `down`, `side`) has
  hysteresis: an `up` bar stays `up` while the MACD histogram is positive,
  a `down` bar stays `down` while it is negative, and the up test comes
  first. Leaving `up` sells, leaving `down` buys.
- **trend_stoch**: the same hits without hysteresis, a MACD derived from two
  EMAs, and a history-length gate before the trend is written.
- **trend_bollinger**: a small state machine over `last_hit_bollinger` and
  `last_hit_close`; the first bar back inside the bands after a touch
  reports a trend if its close moved back, and narrow bands suppress the
  signal but not the state.
- **lib/ta_trend_macd.js**: the history gate, the countdown loop that lays
  the newest bars out oldest first, and the fan-in of eight TA-Lib results
  onto the current bar.

Prices and indicator values are `real`. A bar (`Common.Period`) is a record
whose indicator fields are `Option`s: `None` is JavaScript's `undefined`, a
comparison with it is false (`Above`, `Below`), and a field is "set" in the
sense of the `isAllSet` guards when it is present and not 0 (`Truthy`). The
strategy object `s` is a class per strategy (`Strategy`) whose methods
update `period`, `signal` and the carried fields in place. Each method's
contract equates its new state with a pure function (`NextTrend`,
`StochTrend`, `Step`, `Refreshed`, `Calculated`, `TrendBreakSignal`,
`DeriveMacd`). The lemmas state the properties of those functions: hysteresis,
runs of bars, idempotence, and ties to the inputs the batch and modules
deliver. TA-Lib and the indicator modules are opaque: the eight TA-Lib calls
are a function `backend` of the window they all receive, and the modules
called by `calculate` are given by their outputs (`Common.LibOutputs`).

Files: `common.dfy` (types, JavaScript comparison semantics),
`band_hits.dfy` (band and hit predicates shared by the strategies),
`trend_break.dfy` (the signal rule), `ema_macd.dfy` (MACD derivation),
`ta_trend_macd.dfy`, `trend_macd.dfy`, `trend_stoch.dfy`,
`trend_bollinger.dfy`.

Behaviour of the code that the model follows, where a reader might expect
otherwise:

- Entering `up` from `side` (or `down` from `side`) raises no signal; only
  leaving `up` or `down` does (`TrendMacd.BreakoutScenario`).
- The indicator batch is not all-or-nothing: every result that resolves is
  written to the bar, even when another computation fails
  (`TaTrendMacd.Assign`).
- The band width divides by the middle band with no guard; the model
  requires a non-zero middle band instead of modelling Infinity or NaN.
- Before any classification the previous trend is unset, not `side`.

## Model

| member | source | states |
|---|---|---|
| Common.Above | extensions/strategies/trend_macd/strategy.js:41-55 | JavaScript `x > t` on a field: false when the field is undefined |
| Common.Below | extensions/strategies/trend_macd/strategy.js:41-55 | JavaScript `x < t` on a field: false when the field is undefined |
| Common.Truthy | extensions/strategies/trend_macd/strategy.js:227-230 | a numeric field is truthy when it is defined and not 0 |
| Common.PrevTrend | extensions/strategies/trend_macd/strategy.js:17-19 | the previous bar's trend `s.lookback[0].trend`, unset when there is no previous bar |
| BandHits.IsUpper | extensions/strategies/trend_macd/strategy.js:25-27 | `isUpper`: close > upper/100·(100 − upper_bound_pct) |
| BandHits.IsLower | extensions/strategies/trend_macd/strategy.js:33-35 | `isLower`: close < lower/100·(100 + lower_bound_pct) |
| BandHits.IsBBWWide | extensions/strategies/trend_macd/strategy.js:103-105 | `isBBWWide`: the stored band width is defined and strictly above the threshold |
| BandHits.IsUpperHit | extensions/strategies/trend_macd/strategy.js:73-75 | `isUpperHit`: isUpper and RSI, CCI and %D overbought and wide bands |
| BandHits.IsLowerHit | extensions/strategies/trend_macd/strategy.js:77-79 | `isLowerHit`: isLower and RSI, CCI and %D oversold and wide bands |
| BandHits.BoundsWithoutMargin | extensions/strategies/trend_stoch/strategy.js:28-38 | with a 0 percent margin the upper test is `close > upper` and the lower test `close < lower` |
| BandHits.MarginWidensTouch | extensions/strategies/trend_macd/strategy.js:25-35 | for non-negative bands and margin, a close beyond the band itself is always a touch |
| BandHits.BandWidth | extensions/strategies/trend_macd/strategy.js:99-101 | the width times the middle band is upper minus lower; it is non-negative for ordered bands and a positive middle |
| BandHits.UpperHitNeedsAll | extensions/strategies/trend_macd/strategy.js:73-75 | an upper hit holds exactly when close > upper·(100−pct)/100, RSI, CCI and %D are above their overbought levels and the band width is above its threshold, all with defined values |
| BandHits.LowerHitNeedsAll | extensions/strategies/trend_macd/strategy.js:77-79 | the lower hit, symmetric with strict `<` on close and oscillators and `>` on the width |
| BandHits.HitsExclusive | extensions/strategies/trend_macd/strategy.js:73-79 | with rsi_oversold ≤ rsi_overbought no bar hits both bands |
| BandHits.NarrowBandsNoHit | extensions/strategies/trend_macd/strategy.js:103-105 | a band width not strictly above the threshold blocks both hits |
| TrendBreak.TrendBreakSignal | extensions/strategies/trend_macd/strategy.js:286-298 | `sell` iff previous `up` and current `side` or `down`; `buy` iff previous `down` and current `side` or `up`; null when either trend is unset or they are equal |
| TrendBreak.LeavingSideIsSilent | extensions/strategies/trend_macd/strategy.js:286-289 | a previous `side` never produces a signal |
| TrendBreak.SignalRun | extensions/strategies/trend_macd/strategy.js:280-298 | one signal per classified bar of a run |
| TrendBreak.SignalRunAt | extensions/strategies/trend_macd/strategy.js:17-19 | the signal of bar k depends only on the trends of bars k−1 and k |
| TrendBreak.OneSignalPerReversal | extensions/strategies/trend_macd/strategy.js:286-298 | the bar after a signal never repeats the same signal |
| TrendBreak.SteadyTrendIsSilent | extensions/strategies/trend_macd/strategy.js:286-289 | a run in which the trend does not change raises no signal |
| EmaMacd.DeriveMacd | extensions/strategies/trend_stoch/strategy.js:166-176 | nothing changes unless both EMAs are set (non-zero); then macd = ema_short − ema_long; the histogram is macd − signal only when the signal EMA is set, else it is left as it was; no other field changes |
| EmaMacd.HistogramConsistent | extensions/strategies/trend_stoch/strategy.js:169-174 | with both EMAs and the signal EMA set, the stored histogram equals the stored MACD minus the stored signal EMA |
| EmaMacd.DeriveMacdIdempotent | extensions/strategies/trend_stoch/strategy.js:166-176 | running the MACD step a second time with the same signal EMA leaves the bar as it is |
| TaTrendMacd.Window | lib/ta_trend_macd.js:197-207 | the bars the loop reads: the newest min_periods of the lookback, oldest first, then the current bar; min_periods+1 bars ending with the current one |
| TaTrendMacd.MarketDataOf | lib/ta_trend_macd.js:196-207 | the four series of a window: high, low, close and volume of bar j at index j, each as long as the window |
| TaTrendMacd.RequestedRange | lib/ta_trend_macd.js:12-13 | the startIdx and endIdx each TA-Lib call is given for a series of the given length; endIdx is always the last index |
| TaTrendMacd.Chronological | lib/ta_trend_macd.js:197-202 | reordering the newest-first bars keeps their number |
| TaTrendMacd.ChronologicalAt | lib/ta_trend_macd.js:197-202 | element j of the reordered list is element len−1−j of the newest-first list |
| TaTrendMacd.WindowAt | lib/ta_trend_macd.js:197-207 | the window has min_periods+1 bars; bar j < min_periods is lookback[min_periods−1−j] and the last is the current bar |
| TaTrendMacd.BuildMarketData | lib/ta_trend_macd.js:196-207 | high/low/close/volume each have min_periods+1 values, value j comes from lookback[min_periods−1−j], the last from the current bar, and the four series are index-aligned on the same window |
| TaTrendMacd.OlderBarsUnread | lib/ta_trend_macd.js:197 | lookbacks that agree on their newest min_periods bars give the same window |
| TaTrendMacd.RequestEndsAtCurrentBar | lib/ta_trend_macd.js:12-13 | every computation's endIdx is the current bar's index; a period-based one spans exactly its period, OBV and ADOSC start at 0 |
| TaTrendMacd.Assign | lib/ta_trend_macd.js:209-217 | for each of the eight computations: if it resolves, its value is written (bands without a width, %K and %D from stoch, MACD, signal and histogram from MACD); if not, its fields keep their old values; prices, EMAs and trend never change |
| TaTrendMacd.Calculated | lib/ta_trend_macd.js:192-219 | short history gives `false` and an untouched bar; otherwise never `false`; `true` only with all eight results attached; the bar's prices and trend never change |
| TaTrendMacd.CalculatedTrueIff | lib/ta_trend_macd.js:209-219 | `true` exactly when the history is long enough and all eight computations resolve |
| TaTrendMacd.PricesDecideMarketData | lib/ta_trend_macd.js:196-207 | two current bars with the same prices and volume give the same series; the indicator fields are never read |
| TaTrendMacd.CalculatedTwiceIsOnce | lib/ta_trend_macd.js:192-219 | a second batch on the bar the first one left reads the same series, gets the same results and leaves the same bar and outcome |
| TaTrendMacd.TaTrendMacd | lib/ta_trend_macd.js:184-220 | the gate, the loop and the fan-in compute the result and bar of `Calculated`; the bar is the window's results assigned onto it |
| TrendMacd.IsUptrendNowOrBefore | extensions/strategies/trend_macd/strategy.js:81-83 | an upper hit now, or a previous `up` with histogram > 0 |
| TrendMacd.IsDowntrendNowOrBefore | extensions/strategies/trend_macd/strategy.js:85-87 | a lower hit now, or a previous `down` with histogram < 0 |
| TrendMacd.NextTrend | extensions/strategies/trend_macd/strategy.js:89-97 | the label `updateTrend` writes: `up` on the up condition, else `down` on the down condition, else `side` |
| TrendMacd.NextTrendCases | extensions/strategies/trend_macd/strategy.js:89-97 | exactly one label; `up` iff the up condition, `down` iff not up and the down condition, `side` iff neither |
| TrendMacd.UptrendHolds | extensions/strategies/trend_macd/strategy.js:81-83 | previous `up` with a positive histogram stays `up` without any hit |
| TrendMacd.DowntrendHolds | extensions/strategies/trend_macd/strategy.js:85-93 | previous `down` with a negative histogram stays `down` unless the upper band is hit |
| TrendMacd.UpperHitWins | extensions/strategies/trend_macd/strategy.js:89-93 | an upper hit gives `up` whatever the previous trend and the down condition |
| TrendMacd.UptrendEndsWithMomentum | extensions/strategies/trend_macd/strategy.js:81-96 | previous `up`, histogram ≤ 0 (or unset) and no upper hit never gives `up`; it gives `down` iff the lower band is hit |
| TrendMacd.NoMomentumWithoutTrend | extensions/strategies/trend_macd/strategy.js:81-87 | after an unset or `side` bar only a hit starts a trend |
| TrendMacd.TrendRun | extensions/strategies/trend_macd/strategy.js:89-97 | one trend per bar of a run |
| TrendMacd.TrendRunAt | extensions/strategies/trend_macd/strategy.js:17-19 | bar k of a run gets the `updateTrend` label against bar k−1's trend, and bar 0 against the trend before the run |
| TrendMacd.UptrendPersists | extensions/strategies/trend_macd/strategy.js:81-91 | from `up`, every bar of a run with positive histograms is `up` |
| TrendMacd.PersistingUptrendIsSilent | extensions/strategies/trend_macd/strategy.js:286-298 | such a run raises no signal |
| TrendMacd.IsAllSet | extensions/strategies/trend_macd/strategy.js:227-230 | `isAllSet`: bands present with non-zero upper and lower, and MACD, RSI, CCI, %D and ADX truthy |
| TrendMacd.ZeroIsUnset | extensions/strategies/trend_macd/strategy.js:227-230 | a MACD, RSI, CCI, %D or ADX of exactly 0 fails `isAllSet` |
| TrendMacd.Refreshed | extensions/strategies/trend_macd/strategy.js:206-225 | the batch's outcome; unless it is `true` the bar is the batch's; when `true` the bar differs from the batch's only in `bollinger.bbw` = (upper−lower)/middle and in `trend`, which is the hysteresis label against the previous bar |
| TrendMacd.RefreshedFromBackend | extensions/strategies/trend_macd/strategy.js:217-223 | after a `true` batch all eight computations resolved on the window, the bands are those the band computation returned with width (upper−lower)/middle, the trend is classified against `lookback[0].trend`, and prices are untouched |
| TrendMacd.RefreshedTwiceIsOnce | extensions/strategies/trend_macd/strategy.js:273-284 | a second `calcIndicators` run on the bar the first one left gives the same bar and outcome |
| TrendMacd.BreakoutScenario | extensions/strategies/trend_macd/strategy.js:286-298 | close 130 over bands 125/100/75 with RSI 85, CCI 150, %D 90 is `up` under the defaults; it buys only after `down`, and after `side` or `up` gives no signal |
| TrendMacd.Strategy.Bbw | extensions/strategies/trend_macd/strategy.js:99-101 | stores the band width on the bands and changes nothing else |
| TrendMacd.Strategy.UpdateTrend | extensions/strategies/trend_macd/strategy.js:89-97 | always writes one label, `NextTrend` against `lookback[0].trend`, and nothing else |
| TrendMacd.Strategy.CalcIndicators | extensions/strategies/trend_macd/strategy.js:206-225 | result and bar are those of `Refreshed` |
| TrendMacd.Strategy.Calculate | extensions/strategies/trend_macd/strategy.js:273-278 | nothing in preroll; otherwise the bar of `Refreshed`, a failure being only logged |
| TrendMacd.Strategy.OnPeriod | extensions/strategies/trend_macd/strategy.js:280-306 | in preroll nothing changes; after a failed batch or with `isAllSet` false the signal is unchanged; otherwise it is the trend-break signal |
| TrendStoch.StochTrend | extensions/strategies/trend_stoch/strategy.js:84-92 | the label `updateTrend` writes: `up` on an upper hit, else `down` on a lower hit, else `side` |
| TrendStoch.StochTrendCases | extensions/strategies/trend_stoch/strategy.js:84-92 | `up` iff upper hit; `down` iff no upper hit and lower hit; `side` iff neither |
| TrendStoch.AgreesWithMacdClassifier | extensions/strategies/trend_stoch/strategy.js:76-92 | the label equals trend_macd's with no previous trend; an `up` here is `up` there; they differ only through trend_macd's momentum continuation |
| TrendStoch.IsAllSet | extensions/strategies/trend_stoch/strategy.js:198-201 | `isAllSet`: band arrays present, and MACD, RSI, CCI and %D truthy |
| TrendStoch.ZeroIsUnset | extensions/strategies/trend_stoch/strategy.js:198-201 | a MACD, RSI, CCI or %D of exactly 0 fails `isAllSet` |
| TrendStoch.Calculated | extensions/strategies/trend_stoch/strategy.js:238-251 | the bar after the modules and the MACD step; with lookback.length ≤ bollinger_size that is all, and the trend is untouched; above it the bar differs from that only in `bollinger.bbw` = (upper−lower)/middle and in `trend`, the hit-only label |
| TrendStoch.AfterIndicators | extensions/strategies/trend_stoch/strategy.js:239-243 | bands, RSI, CCI, %K, %D and both EMAs are the modules' values; with both EMAs set, MACD = short − long and the signal EMA is the module's, and with the signal EMA also set the histogram is short − long − signal; without both EMAs, MACD, signal EMA and histogram are untouched, and without a set signal EMA the histogram is untouched; TA-Lib's MACD signal, prices and trend are untouched |
| TrendStoch.CalculatedFromModules | extensions/strategies/trend_stoch/strategy.js:238-251 | above the gate the bar carries the modules' bands with their width, the modules' RSI, CCI and %D, and a trend decided by those; below it the old trend |
| TrendStoch.Strategy.Macd | extensions/strategies/trend_stoch/strategy.js:166-176 | the bar after the two EMAs and `DeriveMacd` |
| TrendStoch.Strategy.Bbw | extensions/strategies/trend_stoch/strategy.js:94-96 | stores the band width on the bands and changes nothing else |
| TrendStoch.Strategy.UpdateTrend | extensions/strategies/trend_stoch/strategy.js:84-92 | writes the hit-only label and nothing else |
| TrendStoch.Strategy.Calculate | extensions/strategies/trend_stoch/strategy.js:238-251 | the bar of `Calculated` |
| TrendStoch.Strategy.OnPeriod | extensions/strategies/trend_stoch/strategy.js:253-272 | outside preroll with `isAllSet` the signal is the trend-break signal; otherwise it is unchanged |
| TrendBollinger.IsRSIUpper | extensions/strategies/trend_bollinger/strategy.js:28-30 | `isRSIUpper`: RSI defined and strictly above rsi_upper |
| TrendBollinger.IsRSILower | extensions/strategies/trend_bollinger/strategy.js:32-34 | `isRSILower`: RSI defined and strictly below rsi_lower |
| TrendBollinger.UpperTouch | extensions/strategies/trend_bollinger/strategy.js:12-30 | isUpper and RSI above rsi_upper |
| TrendBollinger.LowerTouch | extensions/strategies/trend_bollinger/strategy.js:20-34 | isLower and RSI below rsi_lower |
| TrendBollinger.FilteredByBBW | extensions/strategies/trend_bollinger/strategy.js:51-53 | `filteredByBBW`: the width strictly below the threshold |
| TrendBollinger.CheckBounds | extensions/strategies/trend_bollinger/strategy.js:36-45 | inside iff neither touch; an upper touch (tested first) records `upper`, else a lower touch `lower`; inside leaves the last hit as it was |
| TrendBollinger.Step | extensions/strategies/trend_bollinger/strategy.js:153-184 | last close := close always; inside gives last hit `middle`; `down` iff inside, last hit `upper` and close < last close; `up` symmetric; never `side`; bbw < threshold gives null, else `sell` iff `down` and `buy` iff `up` |
| TrendBollinger.FilterLeavesState | extensions/strategies/trend_bollinger/strategy.js:173-181 | the width threshold changes neither the carried state nor the trend |
| TrendBollinger.ThresholdWidthPasses | extensions/strategies/trend_bollinger/strategy.js:51-53 | a width equal to the threshold is not filtered |
| TrendBollinger.Run | extensions/strategies/trend_bollinger/strategy.js:153-184 | one outcome per bar of a run |
| TrendBollinger.RunAt | extensions/strategies/trend_bollinger/strategy.js:163-171 | bar j of a run starts from the state bar j−1 left |
| TrendBollinger.DownFollowsUpperTouch | extensions/strategies/trend_bollinger/strategy.js:163-171 | a `down` at bar j means bar j is inside, bar j−1 touched the upper band and close fell below bar j−1's close |
| TrendBollinger.UpFollowsLowerTouch | extensions/strategies/trend_bollinger/strategy.js:163-171 | an `up` at bar j means bar j is inside, bar j−1 touched only the lower band and close rose above bar j−1's close |
| TrendBollinger.OneTrendPerExcursion | extensions/strategies/trend_bollinger/strategy.js:163-170 | the bar after an inside bar reports no trend |
| TrendBollinger.Strategy.Calculate | extensions/strategies/trend_bollinger/strategy.js:147-151 | bands and RSI from their modules, then `DeriveMacd` |
| TrendBollinger.Strategy.InBounds | extensions/strategies/trend_bollinger/strategy.js:36-45 | result and new `last_hit_bollinger` are those of `CheckBounds` |
| TrendBollinger.Strategy.OnPeriod | extensions/strategies/trend_bollinger/strategy.js:153-184 | in preroll or without bands nothing changes; otherwise the carried state and the signal are those of `Step` |

## Left out

- TA-Lib (lib/ta_trend_macd.js:8-181) is a native library: its eight calls are one opaque function `backend` of the window; only the requested index ranges are modelled.
- The indicator modules `lib/bollinger`, `lib/rsi`, `lib/ema`, `lib/cci` and `lib/slow_stochastic` are not part of this model; their effect on `s.period` is given as `LibOutputs`. The band arrays they produce are represented by their last values, so the `upper.length − 1` index into `mid` is not modelled.
- TaTrendMacd.Calculated: models the state once every call has settled; when one call rejects, the rejection can reach the caller before the other calls have written their results.
- Promise plumbing and logging (`Promise.all`, `.then`, `.catch(console.log)`) become a sequential outcome `Resolved`/`Rejected`; the callback `cb` is left out.
- Report rendering (`onReport`, the color and text helpers, `formatVolume`) and option registration (`getOptions`) are left out; `Defaults` keeps the defaults the decisions read.
- Floating point: prices are `real`, and NaN and Infinity are not modelled. The band-width division therefore requires a non-zero middle band, where JavaScript would divide by zero silently. In trend_macd this is `MiddleNonZero`: the band computation on the batch's own window either fails or has a non-zero middle band.
- TaTrendMacd.Calculated: a call that resolves always carries a number. TA-Lib resolves with the last element of its output (lib/ta_trend_macd.js:25-27 and the matching lines of the other calls), which is `undefined` when the window is shorter than the indicator's own lookback (for example ADX over 14 periods). The batch then still reports `true` with that field unset, while the model's `true` has every field present.
- `PrevTrend` reads an empty lookback as an unset previous trend; JavaScript would throw a TypeError on `s.lookback[0].trend`.
- TrendStoch.Calculated: requires bands with a non-zero middle once lookback.length > bollinger_size; with the bands missing there, `getUpperBound` (extensions/strategies/trend_stoch/strategy.js:25) throws a TypeError, which the model does not represent. TrendStoch.Strategy.Calculate carries the same requires.
- A missing `stoch` object reads as a missing %D, and a missing bands object as failed tests; JavaScript would throw a TypeError where those tests are reached.
- TrendMacd.RefreshedTwiceIsOnce: `calculate` and `onPeriod` both start a `calcIndicators` run on the same bar. The lemma covers the two runs one after the other; interleavings of their promises are not modelled, and each method models one run.
