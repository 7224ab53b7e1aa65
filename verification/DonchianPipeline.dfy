/** How far ahead the Donchian backtest reads, from bars to closed trades: to the end of the hour,
    and for the DI filter to the length of the load. */
module DonchianPipeline {
  import opened Wrappers
  import opened Seqs
  import opened Market
  import opened Htf
  import opened HtfNesting
  import opened AsOfLookup
  import opened Donchian
  import opened DonchianSignals
  import opened DonchianLoosening
  import opened DonchianFrames
  import opened DonchianCausality

  /** `build_pair_cache` and `run_config` together. */
  method RunPair(prm: Params, f: Filters, bars: seq<Bar>) returns (b: Backtest)
    requires f.warmup == prm.warmup
    ensures b.Abstract() == Run(prm, InputOf(f, Prepare(bars)), |bars|)
  {
    hide Run, InputOf, Prepare;
    var x := BuildPairCache(bars);
    b := RunFiltered(prm, f, x);
  }

  // ------------------------------------------------------------ lists on the trading bars

  lemma {:induction false} RangesAgree(a: seq<Bar>, b: seq<Bar>, k: nat, lo: nat, hi: nat)
    requires SameStart(a, b, k) && lo <= hi <= k
    ensures RangesOf(a, lo, hi) == RangesOf(b, lo, hi)
  {
    if lo < hi {
      RangesAgree(a, b, k, lo, hi - 1);
      TrueRangeSameStart(a, b, k, hi - 1);
    }
  }

  lemma ListsAgree(a: seq<Bar>, b: seq<Bar>, k: nat, i: nat)
    requires SameStart(a, b, k) && i < k
    ensures a[i] == b[i] && ListAtr(a, PERIOD, i) == ListAtr(b, PERIOD, i) && a[..i + 1] == b[..i + 1]
  {
    SameStartAt(a, b, k, i);
    PrefixShorter(a, b, k, i + 1);
    if i >= PERIOD {
      RangesAgree(a, b, k, i + 1 - PERIOD, i + 1);
    }
  }

  // ------------------------------------------------------------ frames

  /** When an hour is over so is its last half-hour. */
  lemma HalfHourOver(bars: seq<Bar>, k: nat, n: nat)
    requires Over(bars, HOUR, k, n)
    ensures Over(bars, HALF_HOUR, k, n)
  {
    hide Bucket;
    if 0 < k && n < |bars| {
      BucketsNest(bars[k - 1].ts, HALF_HOUR, 2);
      BucketsNest(bars[n].ts, HALF_HOUR, 2);
    }
  }

  lemma TooShort(f: Indicator, bars: seq<Bar>, period: posint, i: nat)
    requires i < |bars|
    ensures Lookup(Guarded(false, f), bars, period, i) == None
  {
    var htf := Resample(bars, period, |bars|);
    var column := ColumnOf(Guarded(false, f), htf)[..Begun(htf, bars[i].ts)];
    NothingKnown(column);
  }

  lemma {:induction false} NothingKnown(column: seq<Option<real>>)
    requires forall h :: 0 <= h < |column| ==> column[h] == None
    ensures LastKnown(column) == None
  {
    if column != [] {
      NothingKnown(column[..|column| - 1]);
    }
  }

  /** How many hours the first `k` bars have begun. */
  function HoursBegun(bars: seq<Bar>, k: nat): nat
    requires k <= |bars|
  {
    |Resample(bars, HOUR, k)|
  }

  /** The DI columns of two loads are both there or both empty, or have nothing to show yet. */
  predicate DiSettled(a: seq<Bar>, b: seq<Bar>, k: nat)
    requires k <= |a|
  {
    (LongEnough(HoursOf(a)) <==> LongEnough(HoursOf(b))) || HoursBegun(a, k) <= PERIOD + 1
  }

  /** No DI on the first hours, whatever the load. */
  lemma EarlyDi(bars: seq<Bar>, f: Indicator, i: nat)
    requires Chronological(bars) && i < |bars| && (f == PlusDiOf || f == MinusDiOf)
    requires HoursBegun(bars, i + 1) <= PERIOD + 1
    ensures Lookup(Guarded(LongEnough(HoursOf(bars)), f), bars, HOUR, i) == None
  {
    hide Resample, Begun, PlusDiOf, MinusDiOf, LongEnough;
    BegunIsBuilt(bars, HOUR, i);
    var htf := HoursOf(bars);
    var long := LongEnough(htf);
    var column := ColumnOf(Guarded(long, f), htf)[..Begun(htf, bars[i].ts)];
    forall h | 0 <= h < |column| ensures column[h] == None {
      ShortFrame(htf[..h + 1]);
      assert column[h] == Guarded(long, f)(htf[..h + 1]);
    }
    NothingKnown(column);
  }

  lemma ShortFrame(htf: seq<Bar>)
    requires |htf| <= PERIOD + 1
    ensures PlusDiOf(htf) == None && MinusDiOf(htf) == None
  {
  }

  /** A DI is read exactly on loads of at least 29 hours, from the sixteenth hour on. */
  lemma DiReadExactly(bars: seq<Bar>, f: Indicator, i: nat)
    requires Chronological(bars) && i < |bars| && (f == PlusDiOf || f == MinusDiOf)
    ensures Lookup(Guarded(LongEnough(HoursOf(bars)), f), bars, HOUR, i).Some?
       <==> LongEnough(HoursOf(bars)) && HoursBegun(bars, i + 1) > PERIOD + 1
  {
    hide Resample, Begun;
    var htf := HoursOf(bars);
    if !LongEnough(htf) {
      TooShort(f, bars, HOUR, i);
    } else if HoursBegun(bars, i + 1) <= PERIOD + 1 {
      EarlyDi(bars, f, i);
    } else {
      BegunIsBuilt(bars, HOUR, i);
      var n := Begun(htf, bars[i].ts);
      var column := ColumnOf(Guarded(true, f), htf);
      assert |htf[..n]| == n;
      assert column[..n][n - 1] == column[n - 1] == f(htf[..n]);
    }
  }

  /** Loads that agree until the hour of bar k - 1 is over read the same DI before bar `k` exactly when
      it is settled whether the load is long enough. */
  lemma DiSettledExactly(a: seq<Bar>, b: seq<Bar>, k: nat, n: nat)
    requires Chronological(a) && Chronological(b) && SameStart(a, b, n) && 0 < k
    requires Over(a, HOUR, k, n) && Over(b, HOUR, k, n)
    ensures DiSettled(a, b, k) <==>
      forall i :: 0 <= i < k ==>
        && Lookup(Guarded(LongEnough(HoursOf(a)), PlusDiOf), a, HOUR, i)
           == Lookup(Guarded(LongEnough(HoursOf(b)), PlusDiOf), b, HOUR, i)
        && Lookup(Guarded(LongEnough(HoursOf(a)), MinusDiOf), a, HOUR, i)
           == Lookup(Guarded(LongEnough(HoursOf(b)), MinusDiOf), b, HOUR, i)
  {
    hide Lookup, Resample, Bucket, PlusDiOf, MinusDiOf, LongEnough;
    forall i | 0 <= i < k && DiSettled(a, b, k)
      ensures Lookup(Guarded(LongEnough(HoursOf(a)), PlusDiOf), a, HOUR, i)
           == Lookup(Guarded(LongEnough(HoursOf(b)), PlusDiOf), b, HOUR, i)
      ensures Lookup(Guarded(LongEnough(HoursOf(a)), MinusDiOf), a, HOUR, i)
           == Lookup(Guarded(LongEnough(HoursOf(b)), MinusDiOf), b, HOUR, i)
    {
      DiAgrees(PlusDiOf, a, b, k, n, i);
      DiAgrees(MinusDiOf, a, b, k, n, i);
    }
    if !DiSettled(a, b, k) {
      DiReadExactly(a, PlusDiOf, k - 1);
      DiReadExactly(b, PlusDiOf, k - 1);
      ResampleSameStart(a, b, HOUR, n, k);
    }
  }

  lemma DiAgrees(f: Indicator, a: seq<Bar>, b: seq<Bar>, k: nat, n: nat, i: nat)
    requires Chronological(a) && Chronological(b) && SameStart(a, b, n) && (f == PlusDiOf || f == MinusDiOf)
    requires Over(a, HOUR, k, n) && Over(b, HOUR, k, n) && i < k && DiSettled(a, b, k)
    ensures Lookup(Guarded(LongEnough(HoursOf(a)), f), a, HOUR, i)
         == Lookup(Guarded(LongEnough(HoursOf(b)), f), b, HOUR, i)
  {
    hide Lookup, Resample, Bucket, PlusDiOf, MinusDiOf, LongEnough;
    var longA, longB := LongEnough(HoursOf(a)), LongEnough(HoursOf(b));
    if longA == longB {
      LookupsAgree(Guarded(longA, f), a, b, HOUR, k, n, i);
    } else {
      ResampleGrows(a, HOUR, i + 1, k);
      ResampleSameStart(a, b, HOUR, n, i + 1);
      EarlyDi(a, f, i);
      EarlyDi(b, f, i);
    }
  }

  // ------------------------------------------------------------ readings and trades

  lemma ReadingsAgree(f: Filters, a: seq<Bar>, b: seq<Bar>, k: nat, n: nat)
    requires Chronological(a) && Chronological(b) && SameStart(a, b, n)
    requires Over(a, HOUR, k, n) && Over(b, HOUR, k, n) && (f.useDi ==> DiSettled(a, b, k))
    ensures Agree(f, Prepare(a), Prepare(b), k)
  {
    hide Lookup, Resample, Bucket, PlusDiOf, MinusDiOf, AdxOf, RsiOf, ListAtr, LongEnough, DiSettled;
    var x, y := Prepare(a), Prepare(b);
    HalfHourOver(a, k, n);
    HalfHourOver(b, k, n);
    forall i | 0 <= i < k
      ensures x.bars[i] == y.bars[i] && x.atr[i] == y.atr[i] && x.rsi15[i] == y.rsi15[i]
      ensures x.rsi30[i] == y.rsi30[i] && x.rsi1h[i] == y.rsi1h[i] && x.adx[i] == y.adx[i] && x.hour[i] == y.hour[i]
    {
      ListsAgree(a, b, n, i);
      LookupsAgree(RsiOf, a, b, HALF_HOUR, k, n, i);
      LookupsAgree(RsiOf, a, b, HOUR, k, n, i);
      LookupsAgree(AdxOf, a, b, HOUR, k, n, i);
    }
    if f.useDi {
      forall i | 0 <= i < k ensures x.plusDi[i] == y.plusDi[i] && x.minusDi[i] == y.minusDi[i] {
        DiAgrees(PlusDiOf, a, b, k, n, i);
        DiAgrees(MinusDiOf, a, b, k, n, i);
      }
    }
  }

  /** Loads that agree until the hour of bar k - 1 is over close the same trades before bar `k`, from
      raw bars to sizing. */
  lemma PipelineReadsToHourEnd(prm: Params, f: Filters, a: seq<Bar>, b: seq<Bar>, k: nat, n: nat)
    requires Chronological(a) && Chronological(b) && SameStart(a, b, n)
    requires Over(a, HOUR, k, n) && Over(b, HOUR, k, n) && (f.useDi ==> DiSettled(a, b, k))
    ensures Filter(Run(prm, InputOf(f, Prepare(a)), |a|).records, ExitsBefore(k))
         == Filter(Run(prm, InputOf(f, Prepare(b)), |b|).records, ExitsBefore(k))
  {
    hide Run, InputOf, Prepare, DiSettled, Bucket;
    ReadingsAgree(f, a, b, k, n);
    ReadingsDecideTrades(prm, f, Prepare(a), Prepare(b), k);
  }

  /** Agreement on `k` bars settles what the first `k` bars read of the half-hours and hours exactly
      when bar `k` opens a new hour. */
  lemma SettledAtHourEnds(a: seq<Bar>, k: nat)
    requires Chronological(a) && ValidBars(a) && 0 < k < |a|
    ensures LookupsSettled(a, HALF_HOUR, k) && LookupsSettled(a, HOUR, k)
       <==> Bucket(a[k - 1].ts, HOUR) != Bucket(a[k].ts, HOUR)
  {
    hide LookupsSettled;
    LookupsSettledExactly(a, HALF_HOUR, k);
    LookupsSettledExactly(a, HOUR, k);
    if Over(a, HOUR, k, k) {
      HalfHourOver(a, k, k);
    }
  }
}
