/** What the window statistics and the search score count. */
module WindowMeanings {
  import opened Wrappers
  import opened Reals
  import opened Seqs
  import opened Brackets
  import opened Windows

  function Positive(): real -> bool
  {
    (x: real) => x > 0.0
  }

  function Negative(): real -> bool
  {
    (x: real) => x < 0.0
  }

  lemma SumConcat(a: seq<real>, x: real)
    ensures Sum(a + [x]) == Sum(a) + x
  {
    assert (a + [x])[..|a|] == a;
  }

  lemma FilterSnoc(s: seq<real>, x: real, keep: real -> bool)
    ensures Filter(s + [x], keep) == if keep(x) then Filter(s, keep) + [x] else Filter(s, keep)
  {
    FilterConcat(s, [x], keep);
    assert [x][1..] == [];
  }

  /** Gains are the sum of the values above zero and the wins are their number. */
  lemma {:induction false} GainsMean(values: seq<real>)
    ensures Gains(values) == Sum(Filter(values, Positive())) && Wins(values) == |Filter(values, Positive())|
  {
    hide Filter, Sum;
    if values == [] {
      FilterNone([], Positive());
      SumOfNothing();
    } else {
      var init, x := values[..|values| - 1], values[|values| - 1];
      GainsMean(init);
      assert values == init + [x];
      FilterSnoc(init, x, Positive());
      SumConcat(Filter(init, Positive()), x);
    }
  }

  /** Losses are the sum of the values below zero, turned round. */
  lemma {:induction false} LossesMean(values: seq<real>)
    ensures Losses(values) == -Sum(Filter(values, Negative()))
  {
    hide Filter, Sum;
    if values == [] {
      FilterNone([], Negative());
      SumOfNothing();
    } else {
      var init, x := values[..|values| - 1], values[|values| - 1];
      LossesMean(init);
      assert values == init + [x];
      FilterSnoc(init, x, Negative());
      SumConcat(Filter(init, Negative()), x);
    }
  }

  lemma SumOfNothing()
    ensures Sum([]) == 0.0
  {
  }

  lemma {:induction false} NetIsGainsLessLosses(values: seq<real>)
    ensures Gains(values) - Losses(values) == Sum(values)
  {
    if values != [] {
      NetIsGainsLessLosses(values[..|values| - 1]);
    }
  }

  lemma {:induction false} NoLossesExactly(values: seq<real>)
    ensures Losses(values) == 0.0 <==> forall i :: 0 <= i < |values| ==> values[i] >= 0.0
    ensures Gains(values) == 0.0 <==> forall i :: 0 <= i < |values| ==> values[i] <= 0.0
    ensures Losses(values) >= 0.0 && Gains(values) >= 0.0
  {
    if values != [] {
      var init, x := values[..|values| - 1], values[|values| - 1];
      NoLossesExactly(init);
      assert values == init + [x];
      assert forall i :: 0 <= i < |init| ==> init[i] == values[i];
    }
  }

  /** The profit factor is gains per loss; above one exactly when the values add up to more than zero.
      Without losses it is 99 if anything was gained and zero otherwise. */
  lemma ProfitFactorMeans(values: seq<real>)
    ensures
      var f := ProfitFactor(values);
      if exists i :: 0 <= i < |values| && values[i] < 0.0 then
        && Losses(values) > 0.0 && f * Losses(values) == Gains(values)
        && (f > 1.0 <==> Sum(values) > 0.0)
      else f == if exists i :: 0 <= i < |values| && values[i] > 0.0 then 99.0 else 0.0
  {
    hide Gains, Losses, Sum;
    NetIsGainsLessLosses(values);
    NoLossesExactly(values);
    if Losses(values) > 0.0 {
      RatioAboveOne(Gains(values), Losses(values));
    }
  }

  lemma RatioAboveOne(gains: real, losses: real)
    requires losses > 0.0
    ensures gains / losses * losses == gains && (gains / losses > 1.0 <==> gains > losses)
  {
    var f := gains / losses;
    assert f * losses == gains;
    ScaleByPositive(losses, f, 1.0);
    ScaleByPositive(losses, 1.0, f);
  }

  /** The trades that a window selects of one result. */
  function Selected(r: PairResult, cutoffs: map<string, int>, oos: bool): seq<Trade>
    requires r.pair in cutoffs
  {
    Filter(r.trades, OnSide(cutoffs[r.pair], oos))
  }

  /** A pair counts as profitable when its selected trades add up to more than zero. */
  ghost function WinningPairs(results: seq<PairResult>, cutoffs: map<string, int>, oos: bool, n: nat): set<nat>
    requires n <= |results| && forall r :: r in results ==> r.pair in cutoffs
  {
    set i: nat | i < n && TotalPnl(Selected(results[i], cutoffs, oos)) > 0.0
  }

  lemma {:induction false} PairsAreCounted(results: seq<PairResult>, cutoffs: map<string, int>, oos: bool, n: nat)
    requires n <= |results| && forall r :: r in results ==> r.pair in cutoffs
    ensures ProfitablePairs(results, cutoffs, oos, n) == |WinningPairs(results, cutoffs, oos, n)|
  {
    if n == 0 {
      assert WinningPairs(results, cutoffs, oos, 0) == {};
    } else {
      PairsAreCounted(results, cutoffs, oos, n - 1);
      SelectedIs(results[n - 1], cutoffs, oos);
      NextPair(results, cutoffs, oos, n);
    }
  }

  lemma NextPair(results: seq<PairResult>, cutoffs: map<string, int>, oos: bool, n: nat)
    requires 0 < n <= |results| && forall r :: r in results ==> r.pair in cutoffs
    ensures
      var before, now := WinningPairs(results, cutoffs, oos, n - 1), WinningPairs(results, cutoffs, oos, n);
      |now| == |before| + if TotalPnl(Selected(results[n - 1], cutoffs, oos)) > 0.0 then 1 else 0
  {
    hide Selected, TotalPnl;
    var before, now := WinningPairs(results, cutoffs, oos, n - 1), WinningPairs(results, cutoffs, oos, n);
    assert now == if TotalPnl(Selected(results[n - 1], cutoffs, oos)) > 0.0 then before + {n - 1} else before;
  }

  lemma SelectedIs(r: PairResult, cutoffs: map<string, int>, oos: bool)
    requires r.pair in cutoffs
    ensures Selected(r, cutoffs, oos) == Filter(r.trades, OnSide(cutoffs[r.pair], oos))
  {
  }

  /** Exactly the trades entered after the pair's cutoff are selected out of sample, and exactly the
      others in sample. */
  lemma SelectedExactly(r: PairResult, cutoffs: map<string, int>, t: Trade)
    requires r.pair in cutoffs && t in r.trades
    ensures t in Selected(r, cutoffs, true) <==> cutoffs[r.pair] < t.bracket.entryTime
    ensures t in Selected(r, cutoffs, false) <==> t.bracket.entryTime <= cutoffs[r.pair]
  {
  }

  /** The trades above zero among the first `n`, by index. */
  ghost function Winners(values: seq<real>, n: nat): set<nat>
    requires n <= |values|
  {
    set i: nat | i < n && values[i] > 0.0
  }

  lemma {:induction false} WinsAreCounted(values: seq<real>, n: nat)
    requires n <= |values|
    ensures Wins(values[..n]) == |Winners(values, n)|
  {
    if n == 0 {
      assert Winners(values, 0) == {};
    } else {
      WinsAreCounted(values, n - 1);
      assert values[..n][..n - 1] == values[..n - 1];
      var before, now := Winners(values, n - 1), Winners(values, n);
      assert now == if values[n - 1] > 0.0 then before + {n - 1} else before;
    }
  }

  /** Every figure of a window but the two that follow the equity curve: counts, the share of trades
      with a positive net result, the gross and the net profit factor, and the profitable pairs. */
  lemma StatisticsMean(results: seq<PairResult>, cutoffs: map<string, int>, oos: bool)
    requires forall r :: r in results ==> r.pair in cutoffs
    ensures
      var s, trades := Aggregate(results, cutoffs, oos), Pooled(results, cutoffs, oos, |results|);
      && s.trades == |trades| && s.testedPairs == |results|
      && s.profitablePairs == |WinningPairs(results, cutoffs, oos, |results|)|
      && s.winRate * |trades| as real == |Winners(NetRs(trades), |trades|)| as real
      && s.grossProfitFactor == ProfitFactor(GrossRs(trades)) && s.netProfitFactor == ProfitFactor(NetRs(trades))
  {
    hide CurveAfter, StableSort, ProfitFactor, Pooled, ProfitablePairs, WinningPairs, Winners, Wins, NetRs, GrossRs,
         InitialCapital, ByExitTime;
    PairsAreCounted(results, cutoffs, oos, |results|);
    RateOfWinners(NetRs(Pooled(results, cutoffs, oos, |results|)));
  }

  lemma RateOfWinners(values: seq<real>)
    ensures (if values == [] then 0.0 else Wins(values) as real / |values| as real) * |values| as real
         == |Winners(values, |values|)| as real
  {
    hide Wins;
    WinsAreCounted(values, |values|);
    assert values[..|values|] == values;
    if values == [] {
      assert Winners(values, 0) == {};
    } else {
      assert Wins(values) as real / |values| as real * |values| as real == Wins(values) as real;
    }
  }

  function ExitsAt(time: int): Trade -> bool
  {
    (t: Trade) => t.exitTime == time
  }

  lemma {:induction false} InsertKeepsTies(x: Trade, s: seq<Trade>, time: int)
    ensures Filter(Insert(x, s, ByExitTime()), ExitsAt(time)) == Filter([x] + s, ExitsAt(time))
  {
    if s != [] && !ByExitTime()(x, s[0]) {
      InsertKeepsTies(x, s[1..], time);
      var rest := Insert(x, s[1..], ByExitTime());
      FilterConcat([s[0]], rest, ExitsAt(time));
      FilterConcat([x], s[1..], ExitsAt(time));
      FilterConcat([x], s, ExitsAt(time));
      FilterConcat([s[0]], s[1..], ExitsAt(time));
      assert s == [s[0]] + s[1..];
      OnlyOneExits(x, s[0], time);
    }
  }

  lemma OnlyOneExits(x: Trade, y: Trade, time: int)
    requires x.exitTime != y.exitTime
    ensures Filter([x], ExitsAt(time)) == [] || Filter([y], ExitsAt(time)) == []
  {
  }

  lemma {:induction false} SortKeepsTies(s: seq<Trade>, time: int)
    ensures Filter(StableSort(s, ByExitTime()), ExitsAt(time)) == Filter(s, ExitsAt(time))
  {
    if s != [] {
      var sorted := StableSort(s[1..], ByExitTime());
      SortKeepsTies(s[1..], time);
      InsertKeepsTies(s[0], sorted, time);
      FilterConcat([s[0]], sorted, ExitsAt(time));
      FilterConcat([s[0]], s[1..], ExitsAt(time));
      assert s == [s[0]] + s[1..];
    }
  }

  /** The same trades in the order in which they exit, those of one time in the order in which they came. */
  ghost predicate InExitOrder(order: seq<Trade>, trades: seq<Trade>)
  {
    && multiset(order) == multiset(trades)
    && (forall i, j :: 0 <= i < j < |order| ==> order[i].exitTime <= order[j].exitTime)
    && (forall time: int {:trigger ExitsAt(time)} :: Filter(order, ExitsAt(time)) == Filter(trades, ExitsAt(time)))
  }

  lemma SortsByExit(trades: seq<Trade>)
    ensures InExitOrder(StableSort(trades, ByExitTime()), trades)
  {
    hide Filter;
    StableSortSorts(trades, ByExitTime());
    var order := StableSort(trades, ByExitTime());
    forall i, j | 0 <= i < j < |order| ensures order[i].exitTime <= order[j].exitTime {
      assert ByExitTime()(order[i], order[j]);
    }
    forall time: int {:trigger ExitsAt(time)}
      ensures Filter(order, ExitsAt(time)) == Filter(trades, ExitsAt(time))
    {
      SortKeepsTies(trades, time);
    }
  }

  /** The two figures of the equity curve: it starts at the capital of the first pair and takes the
      pooled trades in exit order. */
  lemma CurveFollowsExits(results: seq<PairResult>, cutoffs: map<string, int>, oos: bool) returns (order: seq<Trade>)
    requires forall r :: r in results ==> r.pair in cutoffs
    ensures InExitOrder(order, Pooled(results, cutoffs, oos, |results|))
    ensures
      var s, trades := Aggregate(results, cutoffs, oos), Pooled(results, cutoffs, oos, |results|);
      var capital: pos := if results == [] then 100000.0 else results[0].initial;
      s.maxDrawdownPct == CurveAfter(capital, order).drawdown && s.totalNetPct * capital == 100.0 * TotalPnl(trades)
  {
    hide Pooled, ProfitablePairs, CurveAfter, ProfitFactor, StableSort, InExitOrder, TotalPnl, Wins;
    var trades := Pooled(results, cutoffs, oos, |results|);
    order := StableSort(trades, ByExitTime());
    SortsByExit(trades);
    NetPctIsPooledPnl(results, cutoffs, oos);
    PercentBack(TotalPnl(trades), InitialCapital(results));
  }

  lemma PercentBack(x: real, capital: pos)
    ensures x / capital * 100.0 * capital == 100.0 * x
  {
    assert x / capital * capital == x;
  }

  /** The score is the validation result exactly when the search sample is no better and there are
      thirty trades; otherwise it is less, by half of what the sample is better by and a quarter of
      every trade that is missing. */
  lemma ScoreMeans(inSample: WindowStats, validation: WindowStats)
    ensures validation.trades == 0 <==> ScoreWindow(inSample, validation) == NegInfinity
    ensures validation.trades > 0 ==>
      var short := validation.totalNetPct - ScoreWindow(inSample, validation).value;
      var missing := if validation.trades < 30 then 30 - validation.trades else 0;
      && short >= 0.0
      && (short == 0.0 <==> inSample.totalNetPct <= validation.totalNetPct && 30 <= validation.trades)
      && (inSample.totalNetPct <= validation.totalNetPct ==> 4.0 * short == missing as real)
      && (inSample.totalNetPct >= validation.totalNetPct ==>
            4.0 * short == 2.0 * (inSample.totalNetPct - validation.totalNetPct) + missing as real)
  {
  }
}
