/**
 * The signal rule of the trend_macd and trend_stoch strategies: a signal is
 * raised on the bar where the trend leaves 'up' (sell) or 'down' (buy).
 */
module TrendBreak {
  import opened Common

  /**
   * `s.signal` from the previous bar's trend and the current one, once the
   * snapshot is complete: null unless the trend broke, then 'sell' when it
   * left 'up' and 'buy' when it left 'down'.
   */
  function TrendBreakSignal(prev: Option<Trend>, cur: Option<Trend>): (sig: Option<Signal>)
    ensures sig == Some(Sell) <==> prev == Some(Up) && (cur == Some(Side) || cur == Some(Down))
    ensures sig == Some(Buy) <==> prev == Some(Down) && (cur == Some(Side) || cur == Some(Up))
    ensures prev.None? || cur.None? || cur == prev ==> sig.None?
  {
    var trendBreak :=
      (cur == Some(Side) && (prev == Some(Up) || prev == Some(Down))) ||
      (cur == Some(Up) && prev == Some(Down)) ||
      (cur == Some(Down) && prev == Some(Up));
    if trendBreak then
      if prev == Some(Up) then Some(Sell)
      else if prev == Some(Down) then Some(Buy)
      else None
    else None
  }

  /** Leaving 'side' never raises a signal, in either direction. */
  lemma LeavingSideIsSilent(cur: Option<Trend>)
    ensures TrendBreakSignal(Some(Side), cur) == None
  {
  }

  /**
   * The signals of a run of classified bars, each bar compared with the one
   * before it; `prev` is the trend of the bar before the run.
   */
  function SignalRun(prev: Option<Trend>, trends: seq<Trend>): (sigs: seq<Option<Signal>>)
    ensures |sigs| == |trends|
    decreases |trends|
  {
    if trends == [] then []
    else [TrendBreakSignal(prev, Some(trends[0]))] + SignalRun(Some(trends[0]), trends[1..])
  }

  /** The k-th signal of a run depends only on bars k-1 and k. */
  lemma {:induction false} SignalRunAt(prev: Option<Trend>, trends: seq<Trend>, k: nat)
    requires k < |trends|
    ensures SignalRun(prev, trends)[k] ==
      TrendBreakSignal(if k == 0 then prev else Some(trends[k - 1]), Some(trends[k]))
    decreases k
  {
    if k > 0 {
      SignalRunAt(Some(trends[0]), trends[1..], k - 1);
    }
  }

  /**
   * Each reversal signals once: the bar after a signal never repeats it,
   * since the trend has already left the state the signal reports leaving.
   */
  lemma OneSignalPerReversal(prev: Option<Trend>, trends: seq<Trend>, k: nat)
    requires k + 1 < |trends|
    requires SignalRun(prev, trends)[k].Some?
    ensures SignalRun(prev, trends)[k + 1] != SignalRun(prev, trends)[k]
  {
    SignalRunAt(prev, trends, k);
    SignalRunAt(prev, trends, k + 1);
  }

  /** While the trend stays the same, no signal is raised. */
  lemma {:induction false} SteadyTrendIsSilent(t: Trend, trends: seq<Trend>)
    requires forall i :: 0 <= i < |trends| ==> trends[i] == t
    ensures forall i :: 0 <= i < |trends| ==> SignalRun(Some(t), trends)[i] == None
  {
    forall i | 0 <= i < |trends|
      ensures SignalRun(Some(t), trends)[i] == None
    {
      SignalRunAt(Some(t), trends, i);
    }
  }
}
