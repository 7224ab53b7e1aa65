/** The HTF-Fib backtest never reads ahead, from raw bars and conversion rates to closed trades. */
module FibPipeline {
  import opened Wrappers
  import opened Seqs
  import opened Market
  import opened Brackets
  import opened FibModel
  import opened FibWalk
  import opened FibCausality
  import opened FibFrames

  /** One pair as loaded. */
  datatype Load = Load(bars: seq<Bar>, usd: seq<pos>)

  /** Which ATR and pivots a configuration uses. */
  datatype Spec = Spec(atrPeriod: posint, period: posint, left: posint, right: posint)

  ghost predicate ValidLoad(a: Load)
  {
    |a.usd| == |a.bars| && Chronological(a.bars)
  }

  ghost predicate SameLoads(a: Load, b: Load, k: nat)
  {
    && ValidLoad(a) && ValidLoad(b) && SameStart(a.bars, b.bars, k)
    && forall i :: 0 <= i < k ==> a.usd[i] == b.usd[i]
  }

  function Inputs(a: Load, spec: Spec): (d: Features)
    requires |a.usd| == |a.bars|
    ensures WellFormed(d) && d.bars == a.bars
  {
    Prepare(a.bars, a.usd, spec.atrPeriod, spec.period, spec.left, spec.right)
  }

  lemma InputsHavePivots(a: Load, spec: Spec)
    requires |a.usd| == |a.bars|
    ensures WithEvents(Inputs(a, spec), spec.period, spec.left, spec.right) == Inputs(a, spec)
  {
    hide EventTable;
  }

  lemma LoadsGiveSameInputs(a: Load, b: Load, spec: Spec, k: nat)
    requires SameLoads(a, b, k)
    ensures SameInputs(Inputs(a, spec), Inputs(b, spec), k)
  {
    InputsAgree(a.bars, b.bars, a.usd, b.usd, spec.atrPeriod, spec.period, spec.left, spec.right, k);
  }

  /** End-to-end causality: loads that agree on their first `k` bars close the same trades before bar `k`, if
      neither run raises; an exception before bar `k` ends both runs alike. */
  lemma PipelineIsCausal(a: Load, b: Load, spec: Spec, cfg: Config, prm: Params, k: nat)
    requires SameLoads(a, b, k)
    ensures
      var p, q := Inputs(a, spec), Inputs(b, spec);
      var r, v := Run(p, cfg, prm, |a.bars|), Run(q, cfg, prm, |b.bars|);
      && SameOutcomeBefore(r, v, k)
      && (Run(p, cfg, prm, k).Err? ==> r == v && r.Err?)
      && (Run(p, cfg, prm, k).Err? <==> Run(q, cfg, prm, k).Err?)
  {
    hide Run, SameInputs, Inputs, SameOutcomeBefore;
    LoadsGiveSameInputs(a, b, spec, k);
    InputsHavePivots(a, spec);
    InputsHavePivots(b, spec);
    WalkIsCausal(Inputs(a, spec), Inputs(b, spec), cfg, prm, spec.period, spec.left, spec.right, k);
  }

  /** Bounded influence of the tail, from raw bars to trades. */
  lemma PipelineTailIsBounded(a: Load, b: Load, spec: Spec, cfg: Config, prm: Params, c: nat)
    requires SameLoads(a, b, c + cfg.maxHold + 2)
    ensures
      var r, v := Run(Inputs(a, spec), cfg, prm, |a.bars|), Run(Inputs(b, spec), cfg, prm, |b.bars|);
      r.Ok? && v.Ok? ==> Filter(r.value.trades, EntersBy(c)) == Filter(v.value.trades, EntersBy(c))
  {
    hide Run, SameInputs, Inputs;
    LoadsGiveSameInputs(a, b, spec, c + cfg.maxHold + 2);
    InputsHavePivots(a, spec);
    InputsHavePivots(b, spec);
    TailIsBounded(Inputs(a, spec), Inputs(b, spec), cfg, prm, spec.period, spec.left, spec.right, c);
  }
}
