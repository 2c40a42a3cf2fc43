/**
 * The MACD derivation of the trend_stoch and trend_bollinger strategies:
 * MACD is the short EMA minus the long EMA, and the histogram is MACD minus
 * its signal EMA, each written only when its inputs are set.
 */
module EmaMacd {
  import opened Common

  /**
   * `s.period` after the MACD step, given the period with its two EMAs already
   * computed and `signalEma`, the value the signal EMA over MACD leaves in
   * `s.period.signal` when it is called (only when both EMAs are set).
   */
  function DeriveMacd(p: Period, signalEma: Option<real>): (q: Period)
    ensures !(Truthy(p.emaShort) && Truthy(p.emaLong)) ==> q == p
    ensures Truthy(p.emaShort) && Truthy(p.emaLong) ==>
      q.macd == Some(p.emaShort.value - p.emaLong.value) && q.signalEma == signalEma
    ensures Truthy(p.emaShort) && Truthy(p.emaLong) && Truthy(signalEma) ==>
      q.macdHistogram == Some(p.emaShort.value - p.emaLong.value - signalEma.value)
    ensures !Truthy(signalEma) ==> q.macdHistogram == p.macdHistogram
    ensures q == p.(macd := q.macd, signalEma := q.signalEma, macdHistogram := q.macdHistogram)
  {
    if Truthy(p.emaShort) && Truthy(p.emaLong) then
      var withMacd := p.(macd := Some(p.emaShort.value - p.emaLong.value), signalEma := signalEma);
      if Truthy(withMacd.signalEma) then
        withMacd.(macdHistogram := Some(withMacd.macd.value - withMacd.signalEma.value))
      else withMacd
    else p
  }

  /**
   * With both EMAs and the signal EMA set, the stored histogram is the stored
   * MACD minus the stored signal EMA, so the three fields agree with each other.
   */
  lemma HistogramConsistent(p: Period, signalEma: Option<real>)
    requires Truthy(p.emaShort) && Truthy(p.emaLong) && Truthy(signalEma)
    ensures var q := DeriveMacd(p, signalEma);
      q.macd.Some? && q.signalEma.Some? && q.macdHistogram == Some(q.macd.value - q.signalEma.value)
  {
  }

  /** Running the step again with the same signal EMA changes nothing. */
  lemma DeriveMacdIdempotent(p: Period, signalEma: Option<real>)
    ensures DeriveMacd(DeriveMacd(p, signalEma), signalEma) == DeriveMacd(p, signalEma)
  {
  }
}
