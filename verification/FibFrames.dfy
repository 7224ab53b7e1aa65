/** The inputs of the HTF-Fib walk from its bars (scripts/run_htf_fib_backtest.py): moving averages, RSI on
    three frames, ATR and pivots. */
module FibFrames {
  import opened Wrappers
  import opened Seqs
  import opened Wilder
  import opened Market
  import opened Htf
  import opened AsOfLookup
  import opened FibModel
  import opened FibCausality
  import Rsi

  const RSI_PERIOD: posint := 14

  // ------------------------------------------------------------ formulas

  /** `ewm(span=span, adjust=False).mean()` at bar `i`. */
  function Ema(bars: seq<Bar>, span: posint, i: nat): real
    requires i < |bars|
  {
    if i == 0 then bars[0].close
    else
      var alpha := 2.0 / (span as real + 1.0);
      alpha * bars[i].close + (1.0 - alpha) * Ema(bars, span, i - 1)
  }

  /** The RSI of two averages; prices that never moved are neutral. */
  function ToRsi(gain: real, loss: real): real
    requires gain >= 0.0 && loss >= 0.0
  {
    if loss == 0.0 then (if gain > 0.0 then 100.0 else 50.0) else 100.0 - 100.0 / (1.0 + gain / loss)
  }

  /** RSI at the last of some closes. */
  function RsiAfter(prices: seq<real>, period: posint): Option<real>
  {
    if |prices| < period + 1 then None
    else Some(ToRsi(Rsi.AverageGain(prices, period), Rsi.AverageLoss(prices, period)))
  }

  function RsiOf(bars: seq<Bar>): Option<real>
  {
    RsiAfter(ClosesOf(bars), RSI_PERIOD)
  }

  /** `_wilder_rsi`: one pass that fills a list from the first full window on. */
  method WilderRsi(prices: seq<real>, period: posint) returns (result: array<Option<real>>)
    ensures result.Length == |prices|
    ensures forall i :: 0 <= i < |prices| ==> result[i] == RsiAfter(prices[..i + 1], period)
  {
    hide RsiAfter, ToRsi, WilderMean, WilderNext;
    result := new Option<real>[|prices|](_ => None);
    forall j | 0 <= j < |prices| && j < period ensures result[j] == RsiAfter(prices[..j + 1], period) {
      EmptyBefore(prices, period, j);
    }
    if |prices| <= period {
      return;
    }
    var gains, losses := Rsi.Rises(prices), Rsi.Drops(prices);
    var gain, loss := Sum(gains[..period]) / period as real, Sum(losses[..period]) / period as real;
    FirstMean(gains, period);
    FirstMean(losses, period);
    RsiAtIndex(prices, period, period);
    result[period] := Some(ToRsi(gain, loss));
    for i := period + 1 to |prices|
      invariant gain == WilderMean(gains, period, i - 2) && loss == WilderMean(losses, period, i - 2)
      invariant forall j :: 0 <= j < i ==> result[j] == RsiAfter(prices[..j + 1], period)
    {
      NextMean(gains, period, i - 1);
      NextMean(losses, period, i - 1);
      gain, loss := WilderNext(gain, gains[i - 1], period), WilderNext(loss, losses[i - 1], period);
      RsiAtIndex(prices, period, i);
      result[i] := Some(ToRsi(gain, loss));
    }
  }

  lemma EmptyBefore(prices: seq<real>, period: posint, i: nat)
    requires i < |prices| && i < period
    ensures RsiAfter(prices[..i + 1], period) == None
  {
  }

  lemma FirstMean(x: seq<real>, period: posint)
    requires period <= |x|
    ensures WilderMean(x, period, period - 1) == Sum(x[..period]) / period as real
  {
  }

  lemma NextMean(x: seq<real>, period: posint, i: nat)
    requires period <= i < |x|
    ensures WilderMean(x, period, i) == WilderNext(WilderMean(x, period, i - 1), x[i], period)
  {
  }

  /** The reading at an index, from the averages of the whole list there. */
  lemma RsiAtIndex(prices: seq<real>, period: posint, i: nat)
    requires period <= i < |prices|
    ensures
      var gain, loss := WilderMean(Rsi.Rises(prices), period, i - 1), WilderMean(Rsi.Drops(prices), period, i - 1);
      gain >= 0.0 && loss >= 0.0 && RsiAfter(prices[..i + 1], period) == Some(ToRsi(gain, loss))
  {
    hide WilderMean, ToRsi;
    AveragesOfPrefix(prices, period, i);
  }

  /** The averages of a prefix are those of the whole list at its last difference. */
  lemma AveragesOfPrefix(prices: seq<real>, period: posint, i: nat)
    requires period <= i < |prices|
    ensures Rsi.AverageGain(prices[..i + 1], period) == WilderMean(Rsi.Rises(prices), period, i - 1)
    ensures Rsi.AverageLoss(prices[..i + 1], period) == WilderMean(Rsi.Drops(prices), period, i - 1)
  {
    MeanOfPrefix(Rsi.Rises(prices[..i + 1]), Rsi.Rises(prices), period, i - 1);
    MeanOfPrefix(Rsi.Drops(prices[..i + 1]), Rsi.Drops(prices), period, i - 1);
  }

  /** All prices are one. */
  ghost predicate NeverMoves(prices: seq<real>)
  {
    forall i :: 0 <= i < |prices| - 1 ==> prices[i] == prices[i + 1]
  }

  /** The two RSI implementations of the repository agree on a list of prices exactly when some price moves:
      without any move this one is neutral and the other reads one hundred. */
  lemma RsiAgreesExactly(prices: seq<real>, period: posint)
    requires period >= 2 && |prices| >= period + 1
    ensures RsiAfter(prices, period) == Rsi.Reading(prices, period) <==> !NeverMoves(prices)
    ensures NeverMoves(prices) ==> RsiAfter(prices, period) == Some(50.0) && Rsi.Reading(prices, period) == Some(100.0)
  {
    Rsi.AverageZero(prices, period);
    assert NeverMoves(prices) <==> Rsi.NeverRises(prices) && Rsi.NeverFalls(prices);
  }

  /** So it is a percentage too. */
  lemma RsiAfterBounds(prices: seq<real>, period: posint)
    requires period >= 2 && |prices| >= period + 1
    ensures RsiAfter(prices, period).Some? && 0.0 <= RsiAfter(prices, period).value <= 100.0
  {
    RsiAgreesExactly(prices, period);
    Rsi.ReadingBounds(prices, period);
  }

  // ------------------------------------------------------------ frames

  /** `_confirmed_htf_rsi`: the value before the newest bar that has begun, shifted on by one bar. */
  function Confirmed(f: Indicator, bars: seq<Bar>, period: posint, i: nat): Option<real>
    requires i < |bars|
  {
    var htf := Resample(bars, period, |bars|);
    var n := Begun(htf, bars[i].ts);
    if n < 2 then None else f(htf[..n - 1])
  }

  /** All inputs of the walk, `prepare_backtest_data`; conversion rates are given. */
  function Prepare(bars: seq<Bar>, usd: seq<pos>, atrPeriod: posint, period: posint, left: posint, right: posint)
    : (d: Features)
    ensures d.bars == bars && d.usd == usd && d.events == EventTable(bars, period, left, right)
    ensures |usd| == |bars| ==> WellFormed(d)
  {
    var n := |bars|;
    Features(
      bars,
      seq(n, i requires 0 <= i < n => Ema(bars, 50, i)), seq(n, i requires 0 <= i < n => Ema(bars, 200, i)),
      seq(n, i requires 0 <= i < n => RsiOf(bars[..i + 1])),
      seq(n, i requires 0 <= i < n => Confirmed(RsiOf, bars, HALF_HOUR, i)),
      seq(n, i requires 0 <= i < n => Confirmed(RsiOf, bars, HOUR, i)),
      usd, seq(n, i requires 0 <= i < n => WilderAtr(bars, atrPeriod, i)),
      EventTable(bars, period, left, right))
  }

  // ------------------------------------------------------------ what the inputs read

  lemma {:induction false} EmaAgrees(a: seq<Bar>, b: seq<Bar>, k: nat, span: posint, i: nat)
    requires SameStart(a, b, k) && i < k
    ensures Ema(a, span, i) == Ema(b, span, i)
  {
    SameStartAt(a, b, k, i);
    if i > 0 {
      EmaAgrees(a, b, k, span, i - 1);
    }
  }

  /** The shift makes the difference: a confirmed reading is settled by the bars up to its own, whatever the
      bucket in progress becomes. */
  lemma ConfirmedAgrees(f: Indicator, a: seq<Bar>, b: seq<Bar>, period: posint, k: nat, i: nat)
    requires Chronological(a) && Chronological(b) && SameStart(a, b, k) && i < k
    ensures Confirmed(f, a, period, i) == Confirmed(f, b, period, i)
  {
    hide Resample, Begun, Bucket;
    SameStartAt(a, b, k, i);
    BegunIsBuilt(a, period, i);
    BegunIsBuilt(b, period, i);
    ResampleSameStart(a, b, period, k, i + 1);
    ResampleGrows(a, period, i + 1, |a|);
    ResampleGrows(b, period, i + 1, |b|);
  }

  /** Inputs of a bar read no later bar. */
  lemma InputsAgree(a: seq<Bar>, b: seq<Bar>, usdA: seq<pos>, usdB: seq<pos>, atrPeriod: posint, period: posint,
                    left: posint, right: posint, k: nat)
    requires |usdA| == |a| && |usdB| == |b| && Chronological(a) && Chronological(b)
    requires SameStart(a, b, k) && forall i :: 0 <= i < k ==> usdA[i] == usdB[i]
    ensures SameInputs(Prepare(a, usdA, atrPeriod, period, left, right),
                       Prepare(b, usdB, atrPeriod, period, left, right), k)
  {
    hide Confirmed, RsiOf, WilderAtr, Ema, EventTable;
    var d, e := Prepare(a, usdA, atrPeriod, period, left, right), Prepare(b, usdB, atrPeriod, period, left, right);
    forall i | 0 <= i < k ensures SameFeatures(d, e, i) {
      EmaAgrees(a, b, k, 50, i);
      EmaAgrees(a, b, k, 200, i);
      PrefixShorter(a, b, k, i + 1);
      ConfirmedAgrees(RsiOf, a, b, HALF_HOUR, k, i);
      ConfirmedAgrees(RsiOf, a, b, HOUR, k, i);
      WilderAtrSameStart(a, b, k, atrPeriod, i);
    }
  }
}
