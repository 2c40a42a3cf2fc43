/**
 * Band-touch predicates shared, line for line, by the trend_macd and
 * trend_stoch strategies (trend_bollinger uses IsUpper, IsLower and
 * BandWidth only).
 */
module BandHits {
  import opened Common

  /** The configured thresholds the hit predicates compare against. */
  datatype Thresholds = Thresholds(
    upperBoundPct: real, lowerBoundPct: real, widthThreshold: real,
    rsiOverbought: real, rsiOversold: real,
    cciOverbought: real, cciOversold: real,
    stochOverbought: real, stochOversold: real)

  /** Close above the upper band, lowered by `pct` percent. */
  predicate IsUpper(close: real, upperBound: real, pct: real)
  {
    close > (upperBound / 100.0) * (100.0 - pct)
  }

  /** Close below the lower band, raised by `pct` percent. */
  predicate IsLower(close: real, lowerBound: real, pct: real)
  {
    close < (lowerBound / 100.0) * (100.0 + pct)
  }

  /** With a zero percentage the band test is a plain comparison with the band. */
  lemma BoundsWithoutMargin(close: real, upperBound: real, lowerBound: real)
    ensures IsUpper(close, upperBound, 0.0) <==> close > upperBound
    ensures IsLower(close, lowerBound, 0.0) <==> close < lowerBound
  {
  }

  /** A positive margin widens the touch zone: a touch without margin is a touch with it. */
  lemma MarginWidensTouch(close: real, upperBound: real, lowerBound: real, pct: real)
    requires pct >= 0.0 && upperBound >= 0.0 && lowerBound >= 0.0
    ensures close > upperBound ==> IsUpper(close, upperBound, pct)
    ensures close < lowerBound ==> IsLower(close, lowerBound, pct)
  {
    assert (upperBound / 100.0) * (100.0 - pct) == upperBound - upperBound * pct / 100.0;
    assert (lowerBound / 100.0) * (100.0 + pct) == lowerBound + lowerBound * pct / 100.0;
  }

  /** Bollinger band width: the spread of the bands relative to the middle band. */
  function BandWidth(upperBound: real, lowerBound: real, middle: real): (w: real)
    requires middle != 0.0
    ensures w * middle == upperBound - lowerBound
    ensures upperBound >= lowerBound && middle > 0.0 ==> w >= 0.0
  {
    (upperBound - lowerBound) / middle
  }

  /** Bands are present with a usable middle band, so that their width is defined. */
  predicate BandsReady(p: Period)
  {
    p.bollinger.Some? && p.bollinger.value.middle != 0.0
  }

  /** The band width stored on the bar exceeds the threshold (strictly). */
  predicate IsBBWWide(p: Period, t: Thresholds)
  {
    p.bollinger.Some? && Above(p.bollinger.value.bbw, t.widthThreshold)
  }

  /** Close near the upper band with RSI, CCI and stochastic %D overbought and wide bands. */
  predicate IsUpperHit(p: Period, upperBound: real, t: Thresholds)
  {
    IsUpper(p.close, upperBound, t.upperBoundPct) && Above(p.rsi, t.rsiOverbought) &&
    Above(p.cci, t.cciOverbought) && Above(p.stochD, t.stochOverbought) && IsBBWWide(p, t)
  }

  /** Close near the lower band with RSI, CCI and stochastic %D oversold and wide bands. */
  predicate IsLowerHit(p: Period, lowerBound: real, t: Thresholds)
  {
    IsLower(p.close, lowerBound, t.lowerBoundPct) && Below(p.rsi, t.rsiOversold) &&
    Below(p.cci, t.cciOversold) && Below(p.stochD, t.stochOversold) && IsBBWWide(p, t)
  }

  /**
   * An upper hit needs every one of its five conditions with real values:
   * a missing oscillator or band width never confirms a hit.
   */
  lemma UpperHitNeedsAll(p: Period, upperBound: real, t: Thresholds)
    ensures IsUpperHit(p, upperBound, t) <==>
      p.rsi.Some? && p.cci.Some? && p.stochD.Some? && p.bollinger.Some? &&
      p.bollinger.value.bbw.Some? &&
      p.close > (upperBound / 100.0) * (100.0 - t.upperBoundPct) &&
      p.rsi.value > t.rsiOverbought && p.cci.value > t.cciOverbought &&
      p.stochD.value > t.stochOverbought && p.bollinger.value.bbw.value > t.widthThreshold
  {
  }

  /** The lower hit, symmetric with strict `<` on the oscillators. */
  lemma LowerHitNeedsAll(p: Period, lowerBound: real, t: Thresholds)
    ensures IsLowerHit(p, lowerBound, t) <==>
      p.rsi.Some? && p.cci.Some? && p.stochD.Some? && p.bollinger.Some? &&
      p.bollinger.value.bbw.Some? &&
      p.close < (lowerBound / 100.0) * (100.0 + t.lowerBoundPct) &&
      p.rsi.value < t.rsiOversold && p.cci.value < t.cciOversold &&
      p.stochD.value < t.stochOversold && p.bollinger.value.bbw.value > t.widthThreshold
  {
  }

  /** With an oversold RSI level not above the overbought one, a bar cannot hit both bands. */
  lemma HitsExclusive(p: Period, upperBound: real, lowerBound: real, t: Thresholds)
    requires t.rsiOversold <= t.rsiOverbought
    ensures !(IsUpperHit(p, upperBound, t) && IsLowerHit(p, lowerBound, t))
  {
  }

  /** Band width narrower than or equal to the threshold blocks both hits. */
  lemma NarrowBandsNoHit(p: Period, upperBound: real, lowerBound: real, t: Thresholds)
    requires p.bollinger.Some? && p.bollinger.value.bbw.Some?
    requires p.bollinger.value.bbw.value <= t.widthThreshold
    ensures !IsUpperHit(p, upperBound, t) && !IsLowerHit(p, lowerBound, t)
  {
  }
}
