/** The HTF-Fib backtest of a pair quoted upside down, from raw bars and conversion rates to trades. */
module FibReflection {
  import opened Wrappers
  import opened Market
  import opened Htf
  import opened FibModel
  import opened FibWalk
  import opened FibCausality
  import opened FibFrames
  import opened FibPipeline
  import opened FibPivots
  import opened Mirror
  import opened FibMirror
  import opened IndicatorMirror

  function FlipLoad(a: Load): Load
  {
    Load(FlipBars(a.bars), a.usd)
  }

  lemma StandingOutFlips(bars: seq<Bar>, c: nat, left: posint, right: posint)
    requires left <= c && c + right < |bars|
    ensures StandsOut(FlipBars(bars), c, left, right) == DipsBelow(bars, c, left, right)
    ensures DipsBelow(FlipBars(bars), c, left, right) == StandsOut(bars, c, left, right)
  {
    assert forall j :: c - left <= j <= c + right ==> FlipBars(bars)[j].high == -bars[j].low;
    assert forall j :: c - left <= j <= c + right ==> FlipBars(bars)[j].low == -bars[j].high;
  }

  lemma ShownFlips(bars: seq<Bar>, c: nat, left: posint, right: posint)
    requires left <= c && c + right + 1 < |bars|
    ensures ShownBy(FlipBars(bars), c, left, right) == FlipEvents(ShownBy(bars, c, left, right))
  {
    hide StandsOut, DipsBelow;
    StandingOutFlips(bars, c, left, right);
  }

  lemma ConfirmationFlips(bars: seq<Bar>, left: posint, right: posint, t: int)
    ensures forall c: nat :: ConfirmsAt(FlipBars(bars), c, left, right, t) <==> ConfirmsAt(bars, c, left, right, t)
  {
  }

  lemma PivotsFlip(a: Load, spec: Spec, i: nat)
    requires ValidLoad(a) && i < |a.bars|
    ensures EventsOn(Inputs(FlipLoad(a), spec), i) == FlipEvents(EventsOn(Inputs(a, spec), i))
  {
    hide FibFrames.Prepare, EventsOn, Resample, ShownBy, ConfirmsAt, FlipBars;
    var bars, t := a.bars, a.bars[i].ts;
    var htf := Resample(bars, spec.period, |bars|);
    BarShowsPivot(bars, a.usd, spec.atrPeriod, spec.period, spec.left, spec.right, i);
    BarShowsPivot(FlipBars(bars), a.usd, spec.atrPeriod, spec.period, spec.left, spec.right, i);
    ResampleFlips(bars, spec.period, |bars|);
    ConfirmationFlips(htf, spec.left, spec.right, t);
    if c: nat :| ConfirmsAt(htf, c, spec.left, spec.right, t) {
      ConfirmsInside(htf, c, spec.left, spec.right, t);
      ShownFlips(htf, c, spec.left, spec.right);
    }
  }

  lemma ConfirmsInside(bars: seq<Bar>, c: nat, left: posint, right: posint, t: int)
    requires ConfirmsAt(bars, c, left, right, t)
    ensures left <= c && c + right + 1 < |bars|
  {
  }

  lemma ReadingFlips(a: Load, spec: Spec, i: nat)
    requires ValidLoad(a) && i < |a.bars|
    ensures
      var d, e := Inputs(a, spec), Inputs(FlipLoad(a), spec);
      && |e.bars| == |d.bars| && WellFormed(d) && WellFormed(e)
      && e.atr[i] == d.atr[i] && e.ema50[i] == -d.ema50[i] && e.ema200[i] == -d.ema200[i]
      && e.rsi15[i] == FlipRsi(d.rsi15[i]) && e.rsi30[i] == FlipRsi(d.rsi30[i]) && e.rsi1h[i] == FlipRsi(d.rsi1h[i])
  {
    hide WilderAtr, Ema, RsiOf, Confirmed, EventTable, FlipBars;
    var bars := a.bars;
    AtrFlips(bars, spec.atrPeriod, i);
    EmaFlips(bars, 50, i);
    EmaFlips(bars, 200, i);
    PrefixFlips(bars, i + 1);
    RsiOfFlips(bars[..i + 1]);
    ConfirmedFlips(bars, HALF_HOUR, i);
    ConfirmedFlips(bars, HOUR, i);
  }

  lemma InputsFlip(a: Load, spec: Spec)
    requires ValidLoad(a)
    ensures ValidLoad(FlipLoad(a)) && InMirror(Inputs(a, spec), Inputs(FlipLoad(a), spec))
  {
    hide FibFrames.Prepare, EventsOn;
    var d, e := Inputs(a, spec), Inputs(FlipLoad(a), spec);
    forall i | 0 <= i < |a.bars|
      ensures EventsOn(e, i) == FlipEvents(EventsOn(d, i)) && e.atr[i] == d.atr[i]
      ensures e.ema50[i] == -d.ema50[i] && e.ema200[i] == -d.ema200[i]
      ensures e.rsi15[i] == FlipRsi(d.rsi15[i]) && e.rsi30[i] == FlipRsi(d.rsi30[i])
      ensures e.rsi1h[i] == FlipRsi(d.rsi1h[i])
    {
      PivotsFlip(a, spec, i);
      ReadingFlips(a, spec, i);
    }
  }

  /** From raw bars: the backtest of the pair quoted upside down, with the two RSI bounds exchanged
      around fifty, takes the same trades the other way, with the same results, or raises the same. */
  lemma PipelineFlips(a: Load, spec: Spec, cfg: Config, prm: Params, k: nat)
    requires ValidLoad(a) && k <= |a.bars|
    ensures ValidLoad(FlipLoad(a)) && |FlipLoad(a).bars| == |a.bars|
    ensures Run(Inputs(FlipLoad(a), spec), FlipConfig(cfg), prm, k) == FlipResult(Run(Inputs(a, spec), cfg, prm, k))
  {
    hide Inputs, Run, FlipConfig, FlipResult, InMirror;
    InputsFlip(a, spec);
    RunFlips(Inputs(a, spec), Inputs(FlipLoad(a), spec), cfg, prm, k);
  }
}
