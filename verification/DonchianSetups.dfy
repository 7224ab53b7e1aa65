/** What the bar before every Donchian trade shows, read off its own fields and the bars it looks back
    on. */
module DonchianSetups {
  import opened Wrappers
  import opened Seqs
  import opened Market
  import opened Costs
  import opened Donchian
  import opened DonchianSignals
  import opened DonchianExits
  import opened Mirror

  /** An RSI lies beyond the bound that the trade fades: below the lower one for a long, above the upper
      one for a short. */
  predicate Stretched(f: Filters, side: Direction, rsi: Option<real>)
  {
    rsi.Some? && Move(side, rsi.value, if side == Long then f.lower else f.upper) > 0.0
  }

  /** The RSI of the bar has crossed back over the bound. */
  predicate CrossesBack(f: Filters, x: Indicators, i: nat, side: Direction)
    requires SameLengths(x) && 0 < i < |x.bars|
  {
    Stretched(f, side, x.rsi15[i - 1]) && x.rsi15[i].Some? && !Stretched(f, side, x.rsi15[i])
  }

  /** The bar goes beyond every bar of the lookback by more than the buffer, and its close is back inside
      the furthest of them. */
  ghost predicate Reclaims(f: Filters, x: Indicators, i: nat, side: Direction)
    requires i < |x.bars|
  {
    && f.lookback <= i
    && (forall j :: i - f.lookback <= j < i ==> Move(side, Tip(side, x.bars[i]), Tip(side, x.bars[j])) > f.buffer)
    && (exists j :: i - f.lookback <= j < i && Move(side, Tip(side, x.bars[j]), x.bars[i].close) > 0.0)
  }

  /** The DI against the trade is at most the ratio times the DI for it, if both are known. */
  predicate DiAllows(f: Filters, x: Indicators, i: nat, side: Direction)
    requires SameLengths(x) && i < |x.bars|
  {
    var (with, against) := if side == Long then (x.plusDi[i], x.minusDi[i]) else (x.minusDi[i], x.plusDi[i]);
    f.useDi && with.Some? && against.Some? ==> against.value <= f.diRatio * with.value
  }

  /** The RSI has come back from where it was some bars ago. */
  predicate Fades(f: Filters, x: Indicators, i: nat, side: Direction)
    requires SameLengths(x) && i < |x.bars|
  {
    f.useMomFade ==>
      && f.momFadeBars <= i && x.rsi15[i].Some? && x.rsi15[i - f.momFadeBars].Some?
      && Move(side, x.rsi15[i - f.momFadeBars].value, x.rsi15[i].value) > 0.0
  }

  predicate GatesOpen(f: Filters, x: Indicators, i: nat)
    requires SameLengths(x) && i < |x.bars|
  {
    && (f.useAdx && x.adx[i].Some? ==> x.adx[i].value < f.maxAdx)
    && (f.useSession ==> f.sessionStart <= x.hour[i] < f.sessionEnd)
  }

  /** All three RSI lie beyond the bound, on a bar that passes the checks for missing values. */
  predicate AllStretched(f: Filters, x: Indicators, j: int, side: Direction)
    requires SameLengths(x)
  {
    && f.warmup <= j < |x.bars| && f.lookback <= j && x.atr[j].Some? && x.atr[j].value > 0.0
    && Stretched(f, side, x.rsi15[j]) && Stretched(f, side, x.rsi30[j]) && Stretched(f, side, x.rsi1h[j])
  }

  /** All three were beyond the bound at most the confirmation bars ago; or never in this run, if the
      confirmation bars outnumber the warm-up. */
  ghost predicate WasStretched(f: Filters, x: Indicators, i: nat, side: Direction)
    requires SameLengths(x)
  {
    || (exists j :: 0 <= j <= i && i - j <= f.confirmBars && AllStretched(f, x, j, side))
    || (f.confirmBars > f.warmup && forall j :: 0 <= j <= i ==> !AllStretched(f, x, j, side))
  }

  /** The reference meaning of a trigger, for both sides at once. */
  ghost predicate TriggersOn(f: Filters, x: Indicators, i: nat, side: Direction)
    requires SameLengths(x) && i < |x.bars|
  {
    && f.warmup <= i && 0 < i && x.atr[i].Some? && x.atr[i].value > 0.0
    && Stretched(f, side, x.rsi30[i]) && Stretched(f, side, x.rsi1h[i]) && CrossesBack(f, x, i, side)
    && Reclaims(f, x, i, side) && DiAllows(f, x, i, side) && GatesOpen(f, x, i) && Fades(f, x, i, side)
    && WasStretched(f, x, i, side)
  }

  // ------------------------------------------------------------ the filters mean that

  lemma {:induction false} AboveAll(s: seq<real>, x: real)
    requires |s| > 0
    ensures x > MaxOf(s) <==> forall j :: 0 <= j < |s| ==> x > s[j]
    ensures x < MaxOf(s) <==> exists j :: 0 <= j < |s| && x < s[j]
  {
    if |s| > 1 {
      AboveAll(s[1..], x);
      assert s == [s[0]] + s[1..];
      assert forall j :: 0 <= j < |s| - 1 ==> s[1..][j] == s[j + 1];
      assert x > MaxOf(s[1..]) <==> forall j :: 1 <= j < |s| ==> x > s[j];
      assert x < MaxOf(s[1..]) <==> exists j :: 1 <= j < |s| && x < s[j];
    }
  }

  lemma {:induction false} BelowAll(s: seq<real>, x: real)
    requires |s| > 0
    ensures x < MinOf(s) <==> forall j :: 0 <= j < |s| ==> x < s[j]
    ensures x > MinOf(s) <==> exists j :: 0 <= j < |s| && x > s[j]
  {
    if |s| > 1 {
      BelowAll(s[1..], x);
      assert s == [s[0]] + s[1..];
      assert forall j :: 0 <= j < |s| - 1 ==> s[1..][j] == s[j + 1];
      assert x < MinOf(s[1..]) <==> forall j :: 1 <= j < |s| ==> x < s[j];
      assert x > MinOf(s[1..]) <==> exists j :: 1 <= j < |s| && x > s[j];
    }
  }

  /** Going beyond the extreme of the lookback is going beyond every bar of it. */
  lemma HighReclaimMeans(f: Filters, x: Indicators, i: nat)
    requires f.lookback <= i < |x.bars|
    ensures Reclaims(f, x, i, Short) <==>
      x.bars[i].high > PreviousHigh(f, x, i) + f.buffer && x.bars[i].close < PreviousHigh(f, x, i)
  {
    hide MaxOf;
    var lo, bar := i - f.lookback, x.bars[i];
    var highs := HighsOf(x.bars)[lo..i];
    WindowOfHighs(x.bars, lo, i);
    AboveAll(highs, bar.high - f.buffer);
    AboveAll(highs, bar.close);
    hide HighsOf;
    assert forall j :: lo <= j < i ==> Tip(Short, x.bars[j]) == highs[j - lo];
    assert forall j :: 0 <= j < |highs| ==> highs[j] == Tip(Short, x.bars[j + lo]);
  }

  lemma WindowOfHighs(bars: seq<Bar>, lo: nat, hi: nat)
    requires lo <= hi <= |bars|
    ensures |HighsOf(bars)[lo..hi]| == hi - lo
    ensures forall j :: lo <= j < hi ==> HighsOf(bars)[lo..hi][j - lo] == bars[j].high
  {
  }

  lemma LowReclaimMeans(f: Filters, x: Indicators, i: nat)
    requires f.lookback <= i < |x.bars|
    ensures Reclaims(f, x, i, Long) <==>
      x.bars[i].low < PreviousLow(f, x, i) - f.buffer && x.bars[i].close > PreviousLow(f, x, i)
  {
    hide MinOf;
    var lo, bar := i - f.lookback, x.bars[i];
    var lows := LowsOf(x.bars)[lo..i];
    WindowOfLows(x.bars, lo, i);
    BelowAll(lows, bar.low + f.buffer);
    BelowAll(lows, bar.close);
    hide LowsOf;
    assert forall j :: lo <= j < i ==> Tip(Long, x.bars[j]) == lows[j - lo];
    assert forall j :: 0 <= j < |lows| ==> lows[j] == Tip(Long, x.bars[j + lo]);
  }

  lemma WindowOfLows(bars: seq<Bar>, lo: nat, hi: nat)
    requires lo <= hi <= |bars|
    ensures |LowsOf(bars)[lo..hi]| == hi - lo
    ensures forall j :: lo <= j < hi ==> LowsOf(bars)[lo..hi][j - lo] == bars[j].low
  {
  }

  lemma AlignmentMeans(f: Filters, x: Indicators, j: int, side: Direction)
    requires SameLengths(x)
    ensures AlignedAt(f, x, j, side) <==> AllStretched(f, x, j, side)
  {
  }

  lemma WindowMeans(f: Filters, x: Indicators, i: nat, side: Direction)
    requires SameLengths(x)
    ensures WindowAccepts(f, x, i, side) <==> WasStretched(f, x, i, side)
  {
    hide AlignedAt, AllStretched;
    forall j ensures AlignedAt(f, x, j, side) <==> AllStretched(f, x, j, side) {
      AlignmentMeans(f, x, j, side);
    }
  }

  lemma SetupMeans(f: Filters, x: Indicators, i: nat, side: Direction)
    requires SameLengths(x) && 0 < i < |x.bars| && Checked(f, x, i) && x.rsi15[i - 1].Some?
    ensures (if side == Long then LongSetup(f, x, i) else ShortSetup(f, x, i)) <==>
      && Stretched(f, side, x.rsi30[i]) && Stretched(f, side, x.rsi1h[i]) && CrossesBack(f, x, i, side)
      && Reclaims(f, x, i, side) && DiAllows(f, x, i, side) && GatesOpen(f, x, i) && Fades(f, x, i, side)
  {
    hide Reclaims, PreviousHigh, PreviousLow;
    HighReclaimMeans(f, x, i);
    LowReclaimMeans(f, x, i);
  }

  /** On every bar of every series, for both sides: the filters fire exactly when the bar triggers. */
  lemma TriggersExactly(f: Filters, x: Indicators, i: nat, side: Direction)
    requires SameLengths(x) && i < |x.bars|
    ensures
      var s := SignalAt(f, x, i);
      s.Some? && (if side == Long then s.value.long else s.value.short) <==> TriggersOn(f, x, i, side)
  {
    hide SignalAt, LongSetup, ShortSetup, WasStretched, WindowAccepts, Reclaims, Fades, DiAllows, GatesOpen;
    if i < f.warmup {
      NothingInWarmup(f, x, i);
    } else {
      TriggersAreSetups(f, x, i);
      WindowMeans(f, x, i, side);
      if i > 0 && Checked(f, x, i) && x.rsi15[i - 1].Some? {
        SetupMeans(f, x, i, side);
      } else {
        ReclaimLooksBack(f, x, i, side);
      }
    }
  }

  lemma NothingInWarmup(f: Filters, x: Indicators, i: nat)
    requires SameLengths(x) && i < |x.bars| && i < f.warmup
    ensures SignalAt(f, x, i) == None
  {
  }

  lemma ReclaimLooksBack(f: Filters, x: Indicators, i: nat, side: Direction)
    requires i < |x.bars|
    ensures Reclaims(f, x, i, side) ==> f.lookback <= i
  {
  }

  // ------------------------------------------------------------ over runs

  /** The bar triggers for this side and, if it is a short, not for a long as well. */
  ghost predicate EntersOn(f: Filters, x: Indicators, i: nat, side: Direction)
    requires SameLengths(x) && i < |x.bars|
  {
    TriggersOn(f, x, i, side) && (side == Short ==> !TriggersOn(f, x, i, Long))
  }

  lemma FiringMeans(f: Filters, x: Indicators, i: int, side: Direction)
    requires SameLengths(x) && i < |x.bars|
    ensures Fires(InputOf(f, x), i, side) <==> 0 <= i && EntersOn(f, x, i, side)
    ensures 0 <= i ==> (Opposed(InputOf(f, x), i, side) <==> TriggersOn(f, x, i, FlipSide(side)))
  {
    hide SignalAt, Reclaims, WasStretched, DiAllows, GatesOpen, Fades;
    if 0 <= i {
      TriggersExactly(f, x, i, Long);
      TriggersExactly(f, x, i, Short);
    }
  }

  /** The bar before every trade of every run triggers for its side: the quarter-hour RSI crosses back
      over the bound with the longer ones still beyond it, the bar goes beyond the whole lookback and
      closes back inside, the DI allow it, and all RSI were beyond the bound within the window. A trade
      that a counter-signal closes leaves on a bar that triggers for the other side. */
  lemma TradesTrigger(prm: Params, f: Filters, x: Indicators, k: nat, r: Record)
    requires SameLengths(x) && k <= |x.bars| && r in Run(prm, InputOf(f, x), k).records
    ensures 0 < r.entryIndex <= r.exitIndex < |x.bars| && EntersOn(f, x, r.entryIndex - 1, r.side)
    ensures r.reason == CounterSignal ==> TriggersOn(f, x, r.exitIndex, FlipSide(r.side))
  {
    hide Run, InputOf, EntersOn, TriggersOn, BreakevenIs, StopIs, Lived, Opposed;
    BarsOfInput(f, x);
    TradesLiveAsTheBarsSay(prm, InputOf(f, x), k);
    FiringMeans(f, x, r.entryIndex - 1, r.side);
    FiringMeans(f, x, r.exitIndex, r.side);
  }

  lemma BarsOfInput(f: Filters, x: Indicators)
    requires SameLengths(x)
    ensures InputOf(f, x).bars == x.bars && InputOf(f, x).atr == x.atr
  {
  }

  /** After every bar past the warm-up a walk that holds no position has an entry of a side pending
      exactly when the bar enters on that side and there is a bar left to fill it on. */
  lemma EntriesExactly(prm: Params, f: Filters, x: Indicators, i: nat, side: Direction)
    requires SameLengths(x) && prm.warmup <= i < |x.bars|
    ensures
      var r := Run(prm, InputOf(f, x), i + 1);
      && (r.pending.Some? && r.pending.value.side == side <==>
          r.position.None? && i + 1 < |x.bars| && EntersOn(f, x, i, side))
      && (r.pending.Some? ==> Some(r.pending.value.atr) == x.atr[i])
  {
    hide Run, InputOf, TriggersOn;
    BarsOfInput(f, x);
    SignalsAreTakenExactly(prm, InputOf(f, x), i);
    FiringMeans(f, x, i, Long);
    FiringMeans(f, x, i, Short);
    var r := Run(prm, InputOf(f, x), i + 1);
    assert side == Long || side == Short;
    assert r.pending.Some? ==> r.pending.value.side == Long || r.pending.value.side == Short;
  }
}
